/** The two-motor key controller of User/dual_motor_controller.c: sequential startup, a debounced
    key, one-turn moves, holding and a latched fault. Each static function of the source is a
    function of the whole state here and a method of the class that refines it. */
module DualMotor {
  import opened Common

  const BOOT_DELAY_MS: nat := 2000
  const CONFIGURATION_TIMEOUT_MS: nat := 100
  const RETRY_LIMIT: nat := 3
  const ITEMS: nat := 10
  const CONTROL_MODE: nat := 2
  const DEBOUNCE_MS: nat := 20
  const FEEDBACK_TIMEOUT_MS: nat := 50
  const MOVEMENT_TIMEOUT_MS: nat := 30000
  const ARRIVAL_CYCLES: nat := 3
  const TURN := 6.2831853071795864769
  const ARRIVAL_POSITION := 0.0087266462599716479
  const ARRIVAL_VELOCITY := 0.0174532925199432958
  const QUANTIZATION_MARGIN := 0.001

  datatype Stage = BootDelay | Configuring | RequestingFeedback | Ready | Enabling | Moving | Holding | Fault

  datatype FaultReason = NoFault | ConfigurationTimeout | InvalidParameter | TargetRange | FeedbackTimeout
                       | MotorFault | MovementTimeout | CanTransmit | BusOff

  type Byte = x: nat | x < 256

  datatype CanFrame = CanFrame(identifier: nat, data: seq<Byte>)

  /** Frames the controller hands to its transport. A configuration request is named by its item. */
  datatype Command = Enable(motor: nat) | Disable(motor: nat) | Request(item: nat) | Target(motor: nat, position: real)

  datatype Attempt = Attempt(command: Command, accepted: bool)

  datatype Key = Key(stable: bool, candidate: bool, sinceMs: nat, armed: bool)

  datatype Config = Config(index: nat, retries: nat, waiting: bool, requestMs: nat)

  datatype Move = Move(accepted: bool, direction: int, count: nat, startMs: nat)

  /** One motor's entries in the state arrays, and its bits in the masks. */
  datatype Motor = Motor(
    modeReady: bool, rangesReady: bool, seen: bool, enabled: bool, arrived: bool, disableRequested: bool,
    driver: nat, cycles: nat, feedbackMs: nat, pmax: real, vmax: real, tmax: real,
    initial: real, target: real, position: real, velocity: real)

  const BLANK := Motor(false, false, false, false, false, false, 0, 0, 0, 0.0, 0.0, 0.0, 0.0, 0.0, 0.0, 0.0)

  type Motors = s: seq<Motor> | |s| == 2 witness [BLANK, BLANK]

  datatype Controller = Controller(stage: Stage, fault: FaultReason, key: Key, config: Config, motors: Motors,
                                   move: Move, initMs: nat, wire: seq<Attempt>)

  /** Whether the transport accepts the n-th frame it is ever given. */
  type Link = nat -> bool

  function Initial(now: nat): Controller {
    Controller(BootDelay, NoFault, Key(false, false, now, false), Config(0, 0, false, now), [BLANK, BLANK],
               Move(false, 1, 0, now), now, [])
  }

  // ----- Faults and transmission -----

  function Latched(s: Controller, reason: FaultReason, requestDisable: bool): Controller {
    if s.stage == Fault then s
    else s.(stage := Fault, fault := reason,
            motors := [Stopped(s.motors[0], requestDisable), Stopped(s.motors[1], requestDisable)])
  }

  function Stopped(m: Motor, requestDisable: bool): Motor {
    m.(enabled := false, disableRequested := m.disableRequested || requestDisable)
  }

  /** Hands one frame to the transport and says whether it was accepted. */
  function Transmit(s: Controller, c: Command, link: Link): (Controller, bool) {
    (s.(wire := s.wire + [Attempt(c, link(|s.wire|))]), link(|s.wire|))
  }

  function PendingDisableOf(s: Controller, m: nat, link: Link): Controller
    requires m < 2
  {
    if !s.motors[m].disableRequested then s
    else
      var (t, ok) := Transmit(s, Disable(m), link);
      if ok then t.(motors := t.motors[m := t.motors[m].(disableRequested := false)]) else t
  }

  function PendingDisable(s: Controller, link: Link): Controller {
    PendingDisableOf(PendingDisableOf(s, 0, link), 1, link)
  }

  /** Sends one command per motor, in order; the first rejection latches a transmit fault. */
  function SendBoth(s: Controller, first: Command, second: Command, link: Link): (Controller, bool) {
    var (t, ok) := Transmit(s, first, link);
    if !ok then (Latched(t, CanTransmit, true), false)
    else
      var (u, ok2) := Transmit(t, second, link);
      if ok2 then (u, true) else (Latched(u, CanTransmit, true), false)
  }

  function SendTargets(s: Controller, link: Link): Controller {
    SendBoth(s, Target(0, s.motors[0].target), Target(1, s.motors[1].target), link).0
  }

  function RefreshDisabled(s: Controller, link: Link): Controller {
    SendBoth(s, Disable(0), Disable(1), link).0
  }

  // ----- Configuration -----

  function SendRequest(s: Controller, now: nat, link: Link): Controller {
    var (t, ok) := Transmit(s, Request(s.config.index), link);
    if ok then t.(config := t.config.(requestMs := now, waiting := true)) else Latched(t, CanTransmit, true)
  }

  function ServiceConfiguration(s: Controller, now: nat, link: Link): Controller {
    if s.config.index >= ITEMS then
      s.(stage := RequestingFeedback, config := s.config.(requestMs := now),
         motors := [s.motors[0].(disableRequested := true, seen := false), s.motors[1].(disableRequested := true, seen := false)])
    else if !s.config.waiting then SendRequest(s, now, link)
    else if Elapsed32(now, s.config.requestMs) < CONFIGURATION_TIMEOUT_MS then s
    else
      var t := s.(config := s.config.(waiting := false, retries := s.config.retries + 1));
      if t.config.retries > RETRY_LIMIT then Latched(t, ConfigurationTimeout, true) else SendRequest(t, now, link)
  }

  // ----- Key -----

  /** New key state, and whether this sample completes a debounced press. */
  function KeySample(k: Key, now: nat, pressed: bool): (Key, bool) {
    if pressed != k.candidate then (k.(candidate := pressed, sinceMs := now), false)
    else if k.stable != pressed && Elapsed32(now, k.sinceMs) >= DEBOUNCE_MS then (k.(stable := pressed), pressed)
    else (k, false)
  }

  // ----- Moves -----

  predicate Fits(s: Controller, direction: int) {
    && Abs(s.motors[0].position + direction as real * TURN) <= s.motors[0].pmax
    && Abs(s.motors[1].position + direction as real * TURN) <= s.motors[1].pmax
  }

  function Aimed(m: Motor, direction: int): Motor {
    m.(initial := m.position, target := m.position + direction as real * TURN, cycles := 0, arrived := false, enabled := false)
  }

  function Wanted(s: Controller): int {
    if s.move.direction >= 0 then 1 else -1
  }

  /** The preferred direction if it fits, otherwise the opposite one, otherwise none. */
  function Chosen(s: Controller): Option<int> {
    if Fits(s, Wanted(s)) then Some(Wanted(s)) else if Fits(s, -Wanted(s)) then Some(-Wanted(s)) else None
  }

  function AcceptMove(s: Controller, now: nat, link: Link): Controller {
    match Chosen(s)
    case None => Latched(s, TargetRange, true)
    case Some(direction) =>
      var t := s.(motors := [Aimed(s.motors[0], direction), Aimed(s.motors[1], direction)],
                  move := s.move.(accepted := true, startMs := now));
      var (u, ok) := SendBoth(t, Enable(0), Enable(1), link);
      if ok then u.(stage := Enabling, move := u.move.(count := (u.move.count + 1) % U32_RANGE, direction := -direction)) else u
  }

  // ----- One service call -----

  predicate Recent(s: Controller, now: nat) {
    Elapsed32(now, s.motors[0].feedbackMs) <= FEEDBACK_TIMEOUT_MS && Elapsed32(now, s.motors[1].feedbackMs) <= FEEDBACK_TIMEOUT_MS
  }

  /** Arms on a stable release; an armed press edge is consumed by a move. */
  function Armed(s: Controller): Controller {
    if !s.key.stable then s.(key := s.key.(armed := true)) else s
  }

  predicate Triggers(s: Controller, edge: bool) {
    edge && s.key.armed
  }

  function Consume(s: Controller, now: nat, link: Link): Controller {
    AcceptMove(s.(key := s.key.(armed := false)), now, link)
  }

  function InReady(s: Controller, now: nat, edge: bool, link: Link): Controller {
    if !Recent(s, now) then Latched(s, FeedbackTimeout, true)
    else
      var t := Armed(s);
      if Triggers(t, edge) then Consume(t, now, link) else RefreshDisabled(t, link)
  }

  function InEnabling(s: Controller, now: nat, link: Link): Controller {
    if Elapsed32(now, s.move.startMs) > FEEDBACK_TIMEOUT_MS then Latched(s, FeedbackTimeout, true)
    else if s.motors[0].enabled && s.motors[1].enabled then
      SendTargets(s.(stage := Moving, move := s.move.(startMs := now)), link)
    else s
  }

  function InMotion(s: Controller, now: nat, edge: bool, link: Link): Controller {
    if !Recent(s, now) then Latched(s, FeedbackTimeout, true)
    else
      var t := if s.stage == Holding then Armed(s) else s;
      if t.stage == Holding && Triggers(t, edge) then Consume(t, now, link)
      else if t.stage == Moving && Elapsed32(now, t.move.startMs) > MOVEMENT_TIMEOUT_MS then Latched(t, MovementTimeout, true)
      else SendTargets(t, link)
  }

  function Serviced(s: Controller, now: nat, edge: bool, link: Link): Controller {
    match s.stage
    case Fault => s
    case BootDelay =>
      if Elapsed32(now, s.initMs) >= BOOT_DELAY_MS then ServiceConfiguration(s.(stage := Configuring), now, link) else s
    case Configuring => ServiceConfiguration(s, now, link)
    case RequestingFeedback =>
      if !s.motors[0].disableRequested && !s.motors[1].disableRequested && s.motors[0].seen && s.motors[1].seen
      then s.(stage := Ready)
      else if Elapsed32(now, s.config.requestMs) > FEEDBACK_TIMEOUT_MS then Latched(s, FeedbackTimeout, true)
      else s
    case Ready => InReady(s, now, edge, link)
    case Enabling => InEnabling(s, now, link)
    case Moving => InMotion(s, now, edge, link)
    case Holding => InMotion(s, now, edge, link)
  }

  function Stepped(s: Controller, now: nat, pressed: bool, link: Link): Controller {
    var (key, edge) := KeySample(s.key, now, pressed);
    Serviced(PendingDisable(s.(key := key), link), now, edge, link)
  }

  // ----- Received frames -----

  const MODE_REGISTER: nat := 0x0A

  /** Items of one motor in order: write mode, read mode, then the three ranges. */
  function ItemRegister(item: nat): nat {
    match item % 5 case 0 => MODE_REGISTER case 1 => MODE_REGISTER case 2 => 0x15 case 3 => 0x16 case _ => 0x17
  }

  function Little32(d: seq<Byte>): nat
    requires |d| == 4
  {
    d[0] as nat + 256 * (d[1] as nat) + 65536 * (d[2] as nat) + 16777216 * (d[3] as nat)
  }

  function Symmetric(code: nat, maximum: real, top: nat): real
    requires top > 0
  {
    code as real * (2.0 * maximum) / top as real - maximum
  }

  function VelocityCode(f: CanFrame): nat
    requires |f.data| == 8
  {
    f.data[3] as nat * 16 + f.data[4] as nat / 16
  }

  /** Which motor a master identifier belongs to. */
  function MotorOf(identifier: nat): Option<nat> {
    if identifier == 0x11 then Some(0) else if identifier == 0x12 then Some(1) else None
  }

  predicate AnswersRequest(s: Controller, m: nat, f: CanFrame)
    requires |f.data| == 8
  {
    s.config.index < ITEMS && s.config.index / 5 == m
    && f.data[0] as nat + (f.data[1] as nat % 8) * 256 == m + 1 && f.data[3] == ItemRegister(s.config.index)
  }

  function Completed(s: Controller): Controller {
    s.(config := s.config.(waiting := false, retries := 0, index := s.config.index + 1))
  }

  function OnReply(s: Controller, m: nat, f: CanFrame, value: Float): Controller
    requires m < 2 && |f.data| == 8
  {
    if !AnswersRequest(s, m, f) then s
    else if ItemRegister(s.config.index) == MODE_REGISTER then
      if Little32(f.data[4..]) != CONTROL_MODE then Latched(s, InvalidParameter, true)
      else Completed(if s.config.index % 5 == 0 then s else s.(motors := s.motors[m := s.motors[m].(modeReady := true)]))
    else if value.NotFinite? || value.v <= 0.0 then Latched(s, InvalidParameter, true)
    else Completed(s.(motors := s.motors[m := WithRange(s.motors[m], s.config.index % 5, value.v)]))
  }

  function WithRange(m: Motor, kind: nat, value: real): Motor {
    match kind case 2 => m.(pmax := value) case 3 => m.(vmax := value) case _ => m.(tmax := value, rangesReady := true)
  }

  function ArrivalLimit(vmax: real): real {
    Max(ARRIVAL_VELOCITY, vmax / 4095.0 + QUANTIZATION_MARGIN)
  }

  predicate InTolerance(m: Motor) {
    Abs(m.position - m.target) <= ARRIVAL_POSITION && Abs(m.velocity) <= ArrivalLimit(m.vmax)
  }

  function Measured(m: Motor, f: CanFrame, now: nat): Motor
    requires |f.data| == 8
  {
    m.(driver := f.data[0] / 16, position := Symmetric(f.data[1] as nat * 256 + f.data[2] as nat, m.pmax, 65535),
       velocity := Symmetric(VelocityCode(f), m.vmax, 4095), feedbackMs := now, seen := true)
  }

  /** Counts consecutive in-tolerance feedback up to three; a miss starts again. */
  function Arriving(m: Motor): Motor {
    if InTolerance(m) then
      var c := if m.cycles < ARRIVAL_CYCLES then m.cycles + 1 else m.cycles;
      m.(cycles := c, arrived := m.arrived || c >= ARRIVAL_CYCLES)
    else m.(cycles := 0, arrived := false)
  }

  predicate Tracks(stage: Stage) {
    stage == Moving || stage == Holding
  }

  predicate IsFeedback(s: Controller, m: nat, f: CanFrame)
    requires m < 2 && |f.data| == 8
  {
    f.data[0] % 16 == m + 1 && s.motors[m].rangesReady
    && s.motors[m].pmax > 0.0 && s.motors[m].vmax > 0.0 && s.motors[m].tmax > 0.0
  }

  function OnFeedback(s: Controller, m: nat, f: CanFrame, now: nat): Controller
    requires m < 2 && |f.data| == 8
  {
    if !IsFeedback(s, m, f) then s
    else
      var t := s.(motors := s.motors[m := Measured(s.motors[m], f, now)]);
      if t.motors[m].driver >= 8 then Latched(t, MotorFault, true)
      else
        var u := t.(motors := t.motors[m := t.motors[m].(enabled := t.motors[m].driver == 1)]);
        if !Tracks(u.stage) then u
        else
          var v := u.(motors := u.motors[m := Arriving(u.motors[m])]);
          if v.motors[0].arrived && v.motors[1].arrived then v.(stage := Holding) else v
  }

  predicate ExpectsReply(s: Controller, f: CanFrame)
    requires |f.data| == 8
  {
    (f.data[2] == 0x33 || f.data[2] == 0x55) && s.stage == Configuring && s.config.waiting
  }

  /** One received frame; `value` is the float held in its last four bytes. */
  function OnFrame(s: Controller, f: CanFrame, value: Float, now: nat): Controller {
    if |f.data| != 8 || MotorOf(f.identifier).None? then s
    else if ExpectsReply(s, f) then OnReply(s, MotorOf(f.identifier).value, f, value)
    else OnFeedback(s, MotorOf(f.identifier).value, f, now)
  }

  // ----- Imperative form -----

  class DualController {
    const link: Link
    var stage: Stage
    var fault: FaultReason
    var key: Key
    var config: Config
    var motors: Motors
    var move: Move
    var initMs: nat
    var wire: seq<Attempt>

    ghost function Model(): Controller
      reads this
    {
      Controller(stage, fault, key, config, motors, move, initMs, wire)
    }

    constructor (link: Link, now: nat)
      ensures Model() == Initial(now) && this.link == link
    {
      this.link := link;
      stage, fault, key, config := BootDelay, NoFault, Key(false, false, now, false), Config(0, 0, false, now);
      motors, move, initMs, wire := [BLANK, BLANK], Move(false, 1, 0, now), now, [];
    }

    method LatchFault(reason: FaultReason, requestDisable: bool)
      modifies this`stage, this`fault, this`motors
      ensures Model() == Latched(old(Model()), reason, requestDisable)
    {
      if stage == Fault { return; }
      stage, fault := Fault, reason;
      motors := [Stopped(motors[0], requestDisable), Stopped(motors[1], requestDisable)];
    }

    method SendFrame(c: Command) returns (ok: bool)
      modifies this`wire
      ensures (Model(), ok) == Transmit(old(Model()), c, link)
    {
      ok := link(|wire|);
      wire := wire + [Attempt(c, ok)];
    }

    method ServicePendingDisable()
      modifies this`wire, this`motors
      ensures Model() == PendingDisable(old(Model()), link)
    {
      var m := 0;
      while m < 2
        invariant 0 <= m <= 2
        invariant Model() == if m == 0 then old(Model())
                             else if m == 1 then PendingDisableOf(old(Model()), 0, link)
                             else PendingDisable(old(Model()), link)
      {
        if motors[m].disableRequested {
          var ok := SendFrame(Disable(m));
          if ok { motors := motors[m := motors[m].(disableRequested := false)]; }
        }
        m := m + 1;
      }
    }

    /** The loop shared by the three places that send one frame per motor and stop at a rejection. */
    method SendToBoth(commands: seq<Command>) returns (ok: bool)
      requires |commands| == 2
      modifies this`wire, this`stage, this`fault, this`motors
      ensures (Model(), ok) == SendBoth(old(Model()), commands[0], commands[1], link)
    {
      var m := 0;
      while m < 2
        invariant 0 <= m <= 2
        invariant m == 0 ==> Model() == old(Model())
        invariant m == 1 ==> (Model(), true) == Transmit(old(Model()), commands[0], link)
        invariant m == 2 ==> (Model(), true) == SendBoth(old(Model()), commands[0], commands[1], link)
      {
        ok := SendFrame(commands[m]);
        if !ok {
          LatchFault(CanTransmit, true);
          return;
        }
        m := m + 1;
      }
      return true;
    }

    method SendConfigurationRequest(now: nat)
      modifies this`wire, this`stage, this`fault, this`motors, this`config
      ensures Model() == SendRequest(old(Model()), now, link)
    {
      var ok := SendFrame(Request(config.index));
      if !ok {
        LatchFault(CanTransmit, true);
        return;
      }
      config := config.(requestMs := now, waiting := true);
    }

    method Configure(now: nat)
      modifies this`wire, this`stage, this`fault, this`motors, this`config
      ensures Model() == ServiceConfiguration(old(Model()), now, link)
    {
      if config.index >= ITEMS {
        stage := RequestingFeedback;
        motors := [motors[0].(disableRequested := true, seen := false), motors[1].(disableRequested := true, seen := false)];
        config := config.(requestMs := now);
        return;
      }
      if !config.waiting {
        SendConfigurationRequest(now);
        return;
      }
      if Elapsed32(now, config.requestMs) < CONFIGURATION_TIMEOUT_MS { return; }
      config := config.(waiting := false, retries := config.retries + 1);
      if config.retries > RETRY_LIMIT {
        LatchFault(ConfigurationTimeout, true);
        return;
      }
      SendConfigurationRequest(now);
    }

    method UpdateKey(now: nat, pressed: bool) returns (edge: bool)
      modifies this`key
      ensures (key, edge) == KeySample(old(key), now, pressed)
    {
      if pressed != key.candidate {
        key := key.(candidate := pressed, sinceMs := now);
        return false;
      }
      if key.stable != pressed && Elapsed32(now, key.sinceMs) >= DEBOUNCE_MS {
        key := key.(stable := pressed);
        return pressed;
      }
      return false;
    }

    method DirectionFits(direction: int) returns (fits: bool)
      ensures fits == Fits(Model(), direction)
    {
      var m := 0;
      while m < 2
        invariant 0 <= m <= 2
        invariant forall i | 0 <= i < m :: Abs(motors[i].position + direction as real * TURN) <= motors[i].pmax
      {
        if Abs(motors[m].position + direction as real * TURN) > motors[m].pmax { return false; }
        m := m + 1;
      }
      return true;
    }

    method Accept(now: nat)
      modifies this`wire, this`stage, this`fault, this`motors, this`move
      ensures Model() == AcceptMove(old(Model()), now, link)
    {
      hide Fits, SendBoth, Aimed;
      var direction := if move.direction >= 0 then 1 else -1;
      var fits := DirectionFits(direction);
      if !fits {
        direction := -direction;
        fits := DirectionFits(direction);
        if !fits {
          LatchFault(TargetRange, true);
          return;
        }
      }
      motors := [Aimed(motors[0], direction), Aimed(motors[1], direction)];
      move := move.(accepted := true, startMs := now);
      var ok := SendToBoth([Enable(0), Enable(1)]);
      if !ok { return; }
      move := move.(count := (move.count + 1) % U32_RANGE, direction := -direction);
      stage := Enabling;
    }

    method FeedbackIsRecent(now: nat) returns (recent: bool)
      modifies this`stage, this`fault, this`motors
      ensures recent == Recent(old(Model()), now)
      ensures Model() == if recent then old(Model()) else Latched(old(Model()), FeedbackTimeout, true)
    {
      if Elapsed32(now, motors[0].feedbackMs) > FEEDBACK_TIMEOUT_MS || Elapsed32(now, motors[1].feedbackMs) > FEEDBACK_TIMEOUT_MS {
        LatchFault(FeedbackTimeout, true);
        return false;
      }
      return true;
    }

    method Step(now: nat, pressed: bool)
      modifies this
      ensures Model() == Stepped(old(Model()), now, pressed, link)
    {
      hide KeySample, PendingDisable, Serviced;
      var edge := UpdateKey(now, pressed);
      ServicePendingDisable();
      Service(now, edge);
    }

    method Service(now: nat, edge: bool)
      modifies this
      ensures Model() == Serviced(old(Model()), now, edge, link)
    {
      hide ServiceConfiguration, InMotion, InReady, InEnabling;
      match stage
      case Fault => return;
      case BootDelay =>
        if Elapsed32(now, initMs) >= BOOT_DELAY_MS {
          stage := Configuring;
          Configure(now);
        }
      case Configuring => Configure(now);
      case RequestingFeedback =>
        if !motors[0].disableRequested && !motors[1].disableRequested && motors[0].seen && motors[1].seen { stage := Ready; }
        else if Elapsed32(now, config.requestMs) > FEEDBACK_TIMEOUT_MS { LatchFault(FeedbackTimeout, true); }
      case Ready => ServiceReady(now, edge);
      case Enabling => ServiceEnabling(now);
      case Moving => ServiceMotion(now, edge);
      case Holding => ServiceMotion(now, edge);
    }

    method ServiceReady(now: nat, edge: bool)
      modifies this
      ensures Model() == InReady(old(Model()), now, edge, link)
    {
      hide Recent, AcceptMove, SendBoth;
      var recent := FeedbackIsRecent(now);
      if !recent { return; }
      if !key.stable { key := key.(armed := true); }
      if edge && key.armed {
        key := key.(armed := false);
        Accept(now);
      } else {
        var _ := SendToBoth([Disable(0), Disable(1)]);
      }
    }

    method ServiceEnabling(now: nat)
      modifies this
      ensures Model() == InEnabling(old(Model()), now, link)
    {
      hide SendBoth;
      if Elapsed32(now, move.startMs) > FEEDBACK_TIMEOUT_MS {
        LatchFault(FeedbackTimeout, true);
        return;
      }
      if motors[0].enabled && motors[1].enabled {
        stage := Moving;
        move := move.(startMs := now);
        var _ := SendToBoth([Target(0, motors[0].target), Target(1, motors[1].target)]);
      }
    }

    method ServiceMotion(now: nat, edge: bool)
      modifies this
      ensures Model() == InMotion(old(Model()), now, edge, link)
    {
      hide Recent, AcceptMove, SendBoth;
      var recent := FeedbackIsRecent(now);
      if !recent { return; }
      if stage == Holding && !key.stable { key := key.(armed := true); }
      if stage == Holding && edge && key.armed {
        key := key.(armed := false);
        Accept(now);
        return;
      }
      if stage == Moving && Elapsed32(now, move.startMs) > MOVEMENT_TIMEOUT_MS {
        LatchFault(MovementTimeout, true);
        return;
      }
      var _ := SendToBoth([Target(0, motors[0].target), Target(1, motors[1].target)]);
    }

    method OnCanFrame(f: CanFrame, value: Float, now: nat)
      modifies this
      ensures Model() == OnFrame(old(Model()), f, value, now)
    {
      hide OnReply, OnFeedback;
      if |f.data| != 8 { return; }
      var m := MotorOf(f.identifier);
      if m.None? { return; }
      if (f.data[2] == 0x33 || f.data[2] == 0x55) && stage == Configuring && config.waiting {
        Reply(m.value, f, value);
      } else {
        Feedback(m.value, f, now);
      }
    }

    method Reply(m: nat, f: CanFrame, value: Float)
      requires m < 2 && |f.data| == 8
      modifies this
      ensures Model() == OnReply(old(Model()), m, f, value)
    {
      var address := ItemRegister(config.index);
      if config.index >= ITEMS || config.index / 5 != m || f.data[0] as nat + (f.data[1] as nat % 8) * 256 != m + 1
         || f.data[3] != address { return; }
      if address == MODE_REGISTER {
        if Little32(f.data[4..]) != CONTROL_MODE {
          LatchFault(InvalidParameter, true);
          return;
        }
        if config.index % 5 != 0 { motors := motors[m := motors[m].(modeReady := true)]; }
      } else {
        if value.NotFinite? || value.v <= 0.0 {
          LatchFault(InvalidParameter, true);
          return;
        }
        motors := motors[m := WithRange(motors[m], config.index % 5, value.v)];
      }
      config := config.(waiting := false, retries := 0, index := config.index + 1);
    }

    method Feedback(m: nat, f: CanFrame, now: nat)
      requires m < 2 && |f.data| == 8
      modifies this
      ensures Model() == OnFeedback(old(Model()), m, f, now)
    {
      hide Measured, Arriving, Stopped;
      if f.data[0] % 16 != m + 1 || !motors[m].rangesReady
         || motors[m].pmax <= 0.0 || motors[m].vmax <= 0.0 || motors[m].tmax <= 0.0 { return; }
      motors := motors[m := Measured(motors[m], f, now)];
      if motors[m].driver >= 8 {
        LatchFault(MotorFault, true);
        return;
      }
      motors := motors[m := motors[m].(enabled := motors[m].driver == 1)];
      if stage != Moving && stage != Holding { return; }
      motors := motors[m := Arriving(motors[m])];
      if motors[0].arrived && motors[1].arrived { stage := Holding; }
    }

    method OnBusOff()
      modifies this
      ensures Model() == Latched(old(Model()), BusOff, false)
    {
      LatchFault(BusOff, false);
    }

    method OnCanStartFailure()
      modifies this
      ensures Model() == Latched(old(Model()), CanTransmit, false)
    {
      LatchFault(CanTransmit, false);
    }
  }
}
