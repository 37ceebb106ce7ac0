/** The fixed-range mapping transaction of App/aethor_app.c: a single-motor maintenance protocol
    that reads a range register, writes it at most once, reads it back, rediscovers the motor and
    waits for a fresh DISABLED reply. A failure keeps every motion producer locked. */
module Mapping {
  import opened Common

  datatype State = Idle | Quiet | SourceWait | Write | Settle | TargetWait | Drain | Discovery
                 | Disable | Baseline | Done | Failed

  datatype Family = Velocity | WidePosition | Rated70Position

  const POSITION_REGISTER: nat := 0x15
  const VELOCITY_REGISTER: nat := 0x16
  const WINDOW_US: nat := 3000000
  const REPLY_US: nat := 100000
  const QUIET_US: nat := 500000
  const SETTLE_US: nat := 100000
  const DRAIN_US: nat := 500000
  const DRIVER_DISABLED: nat := 0

  function Register(family: Family): nat {
    if family == Velocity then VELOCITY_REGISTER else POSITION_REGISTER
  }

  /** The range a forward change starts from, and the one it writes. */
  function Original(family: Family): real {
    match family case Velocity => 200.0 case WidePosition => 12.5 case Rated70Position => 512.0
  }

  function Changed(family: Family): real {
    match family case Velocity => 5.0 case WidePosition => 512.0 case Rated70Position => 1024.0
  }

  function SourceOf(family: Family, restore: bool): real {
    if restore then Changed(family) else Original(family)
  }

  function TargetOf(family: Family, restore: bool): real {
    SourceOf(family, !restore)
  }

  /** Decoded motor feedback. */
  datatype Feedback = Feedback(stampUs: nat, driver: nat, faults: nat, position: Float, velocity: Float,
                               torque: Float, mos: Float, rotor: Float)
  {
    predicate Small(x: Float, limit: real) {
      x.Finite? && Abs(x.v) <= limit
    }

    predicate Cool(x: Float) {
      x.Finite? && x.v < 50.0
    }

    /** Disabled, near standstill, unloaded and cool. */
    predicate Resting(velocityLimit: real) {
      driver == DRIVER_DISABLED && Small(velocity, velocityLimit) && Small(torque, 0.15) && Cool(mos) && Cool(rotor)
    }

    predicate Healthy(velocityLimit: real) {
      Resting(velocityLimit) && faults == 0 && position.Finite?
    }
  }

  /** What discovery reported about the motor. */
  datatype Identity = Identity(escId: nat, masterId: nat, mode: nat, software: nat, sub: nat,
                               pmax: Float, vmax: Float, tmax: Float, verified: bool)
  {
    predicate Audited() {
      escId == 7 && masterId == 23 && mode == 2 && software == 808597046 && sub == 49 && tmax == Finite(10.0)
    }

    predicate Matches(positionRange: real, velocityRange: real) {
      Audited() && pmax == Finite(positionRange) && vmax == Finite(velocityRange) && verified
    }

    /** The complete contract after the ranged register holds a value. */
    predicate Holds(register: nat, range: real) {
      Matches(if register == POSITION_REGISTER then range else 12.5, if register == VELOCITY_REGISTER then range else 200.0)
    }
  }

  /** Beginning a discovery forgets everything known about the motor. */
  const UNKNOWN := Identity(0, 0, 0, 0, 0, Finite(0.0), Finite(0.0), Finite(0.0), false)

  datatype CanFrame = CanFrame(identifier: nat, data: seq<nat>)
  {
    /** A reply or acknowledgement about a register of motor 7; the operation is its third byte. */
    predicate IsParameter() {
      |data| >= 4 && data[0] == 7 && data[1] == 0 && (data[2] == 0x33 || data[2] == 0x55)
    }

    predicate IsReadOf(register: nat) {
      IsParameter() && data[2] == 0x33 && data[3] == register && identifier == 23 && |data| == 8
    }

    predicate IsFeedback() {
      identifier == 23 && |data| == 8 && data[0] % 16 == 7
    }
  }

  datatype DiscoveryStatus = Complete | FrameReady | Waiting | Broken

  datatype Sent = ReadSent(register: nat) | WriteSent(register: nat, range: real) | DisableSent | DiscoverySent | NothingSent

  /** What a transaction was admitted for; fixed until the next admission. */
  datatype Plan = Plan(startedUs: nat, requestId: nat, family: Family, register: nat, target: real, recovery: bool)

  /** What the firmware knows about the motor: its last feedback, its identity, and the stamp of
      the last moment at which the receive queue was seen empty. */
  datatype Evidence = Evidence(rxBoundaryUs: nat, feedbackValid: bool, feedback: Feedback, identity: Identity)
  {
    /** Nothing learnt before a range write may be trusted after it. */
    function Invalidated(): Evidence {
      this.(feedbackValid := false, identity := identity.(verified := false))
    }
  }

  /** Snapshot of the transaction record together with the motor evidence it depends on. */
  datatype Txn = Txn(plan: Plan, phaseUs: nat, disabledObservedUs: nat, source: real, state: State, reason: nat,
                     writes: nat, disablePending: bool, evidence: Evidence)
  {
    predicate Locked() {
      state != Idle && state != Done
    }

    function Age(now: nat): nat {
      if now >= phaseUs then now - phaseUs else U64_MAX
    }

    /** Failing is absorbing: the first reason and the lock survive any later failure. */
    function Fail(why: nat, now: nat): Txn {
      if !Locked() || state == Failed then this
      else Txn(plan, if now > phaseUs then now else phaseUs, 0, source, Failed, why, writes, true, evidence.Invalidated())
    }

    function Enter(next: State, now: nat): Txn {
      this.(state := next, phaseUs := now)
    }

    predicate InWindow(now: nat) {
      plan.startedUs <= now < plan.startedUs + WINDOW_US
    }

    function Forget(): Txn {
      this.(evidence := evidence.(identity := UNKNOWN))
    }

    /** The new baseline: a healthy motor, held to a finer standstill on the narrow velocity range. */
    predicate BaselineOk(f: Feedback) {
      f.Healthy(if plan.register == VELOCITY_REGISTER && plan.target == 5.0 then 0.01 else 0.05)
    }
  }

  // ----- Admission -----

  /** Everything admission consults outside the transaction itself. */
  datatype Surroundings = Surroundings(ownerIsLcd: bool, sourcesIdle: bool, notBeforeUs: nat, canIdle: bool, quietSinceUs: nat)

  predicate SurroundingsQuiet(env: Surroundings, now: nat) {
    env.ownerIsLcd && env.sourcesIdle && now >= env.notBeforeUs && env.canIdle
    && now >= env.quietSinceUs && now - env.quietSinceUs >= 4000
  }

  /** The retained identity a restore of a position range insists on. */
  predicate Recoverable(family: Family, id: Identity) {
    family != Velocity ==>
      && id.Audited() && id.vmax == Finite(200.0)
      && (id.pmax == Finite(Original(family)) || id.pmax == Finite(Changed(family)))
  }

  /** A failed transaction may only be recovered by the restore of its own register and family,
      with its DISABLE popped and recent disabled evidence. */
  predicate RecoveryAllowed(t: Txn, family: Family, now: nat) {
    && t.plan.register == Register(family) && t.plan.family == family && now >= t.plan.startedUs
    && t.disabledObservedUs != 0 && t.disabledObservedUs <= now && now - t.disabledObservedUs <= REPLY_US
    && Recoverable(family, t.evidence.identity)
  }

  predicate FreshStartAllowed(t: Txn, family: Family, restore: bool, now: nat) {
    var e := t.evidence;
    && (t.state == Idle || (restore && t.state == Done))
    && e.identity.Holds(Register(family), SourceOf(family, restore))
    && e.feedbackValid && e.feedback.stampUs <= now && now - e.feedback.stampUs <= REPLY_US
    && e.feedback.Healthy(0.05)
  }

  predicate Admissible(t: Txn, requestId: nat, restore: bool, family: Family, now: nat, env: Surroundings) {
    && requestId != 0 && SurroundingsQuiet(env, now) && !t.disablePending
    && (if restore && t.state == Failed then RecoveryAllowed(t, family, now) else FreshStartAllowed(t, family, restore, now))
  }

  function PlanFor(requestId: nat, restore: bool, family: Family, now: nat, recovery: bool): Plan {
    Plan(now, requestId, family, Register(family), TargetOf(family, restore), recovery)
  }

  function Started(t: Txn, requestId: nat, restore: bool, family: Family, now: nat): Txn {
    Txn(PlanFor(requestId, restore, family, now, restore && t.state == Failed), now, 0, SourceOf(family, restore),
        Quiet, 0, 0, false, t.evidence.Invalidated())
  }

  // ----- Receiving -----

  /** What the decoders and the runtime say about an incoming frame. */
  datatype Decoding = Decoding(reply: Option<Float>, feedback: Option<Feedback>, expected: bool, discoveryActive: bool)

  predicate ReplyAccepted(t: Txn, frame: CanFrame, now: nat, d: Decoding) {
    && frame.identifier == 23 && |frame.data| == 8
    && t.phaseUs <= now && now - t.phaseUs < REPLY_US
    && d.reply.Some? && d.reply.value.Finite?
    && (t.state == TargetWait ==> d.reply.value.v == t.plan.target)
    && (t.state == SourceWait ==> d.reply.value.v == t.source || (t.plan.recovery && d.reply.value.v == t.plan.target))
  }

  /** A parameter frame about the transaction's own register. */
  function OwnReply(t: Txn, frame: CanFrame, now: nat, d: Decoding): (Txn, bool)
    requires frame.IsParameter()
  {
    if (t.state == Discovery || t.state == Done) && d.discoveryActive && frame.data[2] == 0x33 then (t, false)
    else if t.state != SourceWait && t.state != TargetWait then (t, true)
    else if frame.data[2] == 0x55 then (t, true)
    else if !ReplyAccepted(t, frame, now, d) then (t.Fail(4, now), true)
    else if t.state == SourceWait then (t.(source := d.reply.value.v).Enter(Write, now), true)
    else (t.Enter(Drain, now), true)
  }

  predicate DisabledEvidence(t: Txn, now: nat, d: Decoding) {
    now != 0 && now >= t.plan.startedUs && now >= t.phaseUs && d.feedback.Some? && d.feedback.value.Resting(0.05)
  }

  /** Normal feedback of the motor while a transaction holds the lock. */
  function Quarantined(t: Txn, frame: CanFrame, now: nat, d: Decoding): (Txn, bool)
    requires t.Locked() && frame.IsFeedback()
  {
    if t.state != Failed && (frame.data[0] / 16 != DRIVER_DISABLED || frame.data[6] >= 50 || frame.data[7] >= 50)
    then (t.Fail(6, now), true)
    else if t.state == Baseline && now >= t.phaseUs then (t, false)
    else if t.state == Failed then (t.(disabledObservedUs := if DisabledEvidence(t, now, d) then now else 0), true)
    else (t, true)
  }

  /** New transaction, and whether the frame was consumed. */
  function Received(t: Txn, frame: CanFrame, now: nat, d: Decoding): (Txn, bool) {
    if t.state == Idle then (t, false)
    else if frame.IsParameter() && frame.data[3] != t.plan.register && t.Locked() then
      (t, !(t.state == Discovery && frame.data[2] == 0x33 && d.expected))
    else if frame.IsParameter() && frame.data[3] == t.plan.register then OwnReply(t, frame, now, d)
    else if t.Locked() && frame.IsFeedback() then Quarantined(t, frame, now, d)
    else (t, false)
  }

  // ----- Emitting -----

  datatype Platform = Platform(ownerIsLcd: bool, sourcesIdle: bool, packs: bool, discoveryBegins: bool, discovery: DiscoveryStatus)

  function ReadStep(t: Txn, now: nat, p: Platform): (Txn, Sent) {
    if now == 0 || t.evidence.rxBoundaryUs != now then (t, NothingSent)
    else if !p.packs then (t.Fail(4, now), NothingSent)
    else (t.Enter(if t.state == Quiet then SourceWait else TargetWait, now), ReadSent(t.plan.register))
  }

  function WriteStep(t: Txn, now: nat, p: Platform): (Txn, Sent) {
    if now == 0 || t.evidence.rxBoundaryUs != now then (t, NothingSent)
    else if !p.packs then (t.Fail(4, now), NothingSent)
    else (t.(writes := 1).Enter(Settle, now), WriteSent(t.plan.register, t.plan.target))
  }

  function DiscoveryStep(t: Txn, now: nat, p: Platform): (Txn, Sent) {
    match p.discovery
    case Complete => (if t.evidence.identity.Holds(t.plan.register, t.plan.target) then t.(state := Disable) else t.Fail(5, now), NothingSent)
    case FrameReady => (t, DiscoverySent)
    case Waiting => (t, NothingSent)
    case Broken => (t.Fail(5, now), NothingSent)
  }

  function DisableStep(t: Txn, now: nat, p: Platform): (Txn, Sent) {
    if now == 0 || t.evidence.rxBoundaryUs != now then (t, NothingSent)
    else if !p.packs then (t.Fail(6, now), NothingSent)
    else (t.Enter(Baseline, now), DisableSent)
  }

  function BaselineStep(t: Txn, now: nat): Txn {
    if !(t.evidence.feedbackValid && t.phaseUs <= t.evidence.feedback.stampUs <= now) then t
    else if t.BaselineOk(t.evidence.feedback) then t.(state := Done)
    else t.Fail(6, now)
  }

  function Advanced(t: Txn, now: nat, p: Platform): (Txn, Sent) {
    var age := t.Age(now);
    if !t.Locked() || t.state == Failed then (t, NothingSent)
    else if !t.InWindow(now) then (t.Fail(2, now), NothingSent)
    else if !p.ownerIsLcd || !p.sourcesIdle then (t.Fail(3, now), NothingSent)
    else match t.state
      case Quiet => if age >= QUIET_US then ReadStep(t, now, p) else (t, NothingSent)
      case Settle => if age >= SETTLE_US then ReadStep(t, now, p) else (t, NothingSent)
      case SourceWait => (if age >= REPLY_US then t.Fail(2, now) else t, NothingSent)
      case TargetWait => (if age >= REPLY_US then t.Fail(2, now) else t, NothingSent)
      case Write => WriteStep(t, now, p)
      case Drain =>
        if age < DRAIN_US then (t, NothingSent)
        else if !p.discoveryBegins then (t.Fail(5, now), NothingSent)
        else DiscoveryStep(t.(state := Discovery).Forget(), now, p)
      case Discovery => DiscoveryStep(t, now, p)
      case Disable => DisableStep(t, now, p)
      case Baseline => (if age >= REPLY_US then t.Fail(2, now) else BaselineStep(t, now), NothingSent)
      case _ => (t, NothingSent)
  }

  /** What the rest of the firmware may write about motor 7: while the lock is held, feedback only
      passes for the new baseline, and parameter replies only for the transaction's own discovery. */
  function Learnt(t: Txn, e: Evidence): Txn {
    var hears, discovers := !t.Locked() || t.state == Baseline, !t.Locked() || t.state == Discovery;
    t.(evidence := Evidence(e.rxBoundaryUs, if hears then e.feedbackValid else t.evidence.feedbackValid,
                            if hears then e.feedback else t.evidence.feedback,
                            if discovers then e.identity else t.evidence.identity))
  }

  /** The record is zeroed at boot, when no feedback is valid yet. */
  function Boot(evidence: Evidence): Txn {
    Txn(Plan(0, 0, Velocity, 0, 0.0, false), 0, 0, 0.0, Idle, 0, 0, false, evidence.(feedbackValid := false))
  }

  // ----- Imperative form -----

  class Transaction {
    var plan: Plan
    var phaseUs: nat
    var disabledObservedUs: nat
    var source: real
    var state: State
    var reason: nat
    var writes: nat
    var disablePending: bool
    var evidence: Evidence

    ghost function Model(): Txn
      reads this
    {
      Txn(plan, phaseUs, disabledObservedUs, source, state, reason, writes, disablePending, evidence)
    }

    constructor (evidence: Evidence)
      ensures Model() == Boot(evidence)
    {
      plan := Plan(0, 0, Velocity, 0, 0.0, false);
      phaseUs, disabledObservedUs, source, state, reason, writes, disablePending := 0, 0, 0.0, Idle, 0, 0, false;
      this.evidence := evidence.(feedbackValid := false);
    }

    method Fail(why: nat, now: nat)
      modifies this
      ensures Model() == old(Model()).Fail(why, now)
    {
      if state == Idle || state == Done || state == Failed { return; }
      evidence := evidence.Invalidated();
      state, reason, disablePending := Failed, why, true;
      if now > phaseUs { phaseUs := now; }
      disabledObservedUs := 0;
    }

    method MayRecover(which: Family, now: nat) returns (ok: bool)
      ensures ok == RecoveryAllowed(Model(), which, now)
    {
      if plan.register != Register(which) || plan.family != which || now < plan.startedUs { return false; }
      if which != Velocity {
        var id := evidence.identity;
        if !id.Audited() || id.vmax != Finite(200.0) { return false; }
        if id.pmax != Finite(Original(which)) && id.pmax != Finite(Changed(which)) { return false; }
      }
      return disabledObservedUs != 0 && now >= disabledObservedUs && now - disabledObservedUs <= REPLY_US;
    }

    method MayStart(which: Family, restore: bool, now: nat) returns (ok: bool)
      ensures ok == FreshStartAllowed(Model(), which, restore, now)
    {
      var positionMapping := which != Velocity;
      var range := SourceOf(which, restore);
      if state != Idle && state != Done { return false; }
      if !restore && state != Idle { return false; }
      if !evidence.identity.Matches(if positionMapping then range else 12.5, if positionMapping then 200.0 else range)
      { return false; }
      var feedback := evidence.feedback;
      return evidence.feedbackValid && now >= feedback.stampUs && now - feedback.stampUs <= REPLY_US && feedback.Healthy(0.05);
    }

    method Start(id: nat, restore: bool, which: Family, now: nat, env: Surroundings) returns (admitted: bool)
      modifies this
      ensures admitted == Admissible(old(Model()), id, restore, which, now, env)
      ensures Model() == if admitted then Started(old(Model()), id, restore, which, now) else old(Model())
    {
      hide RecoveryAllowed, FreshStartAllowed, SurroundingsQuiet;
      if id == 0 || !SurroundingsQuiet(env, now) || disablePending { return false; }
      var recovering := restore && state == Failed;
      var allowed := false;
      if recovering { allowed := MayRecover(which, now); } else { allowed := MayStart(which, restore, now); }
      if !allowed { return false; }
      plan := Plan(now, id, which, Register(which), TargetOf(which, restore), recovering);
      phaseUs, disabledObservedUs, source, state := now, 0, SourceOf(which, restore), Quiet;
      reason, writes, disablePending := 0, 0, false;
      evidence := evidence.Invalidated();
      return true;
    }

    method Receive(frame: CanFrame, now: nat, d: Decoding) returns (consumed: bool)
      modifies this
      ensures (Model(), consumed) == Received(old(Model()), frame, now, d)
    {
      if state == Idle { return false; }
      var locked := state != Done;
      if frame.IsParameter() && frame.data[3] != plan.register && locked {
        return !(state == Discovery && frame.data[2] == 0x33 && d.expected);
      }
      if frame.IsParameter() && frame.data[3] == plan.register {
        if (state == Discovery || state == Done) && d.discoveryActive && frame.data[2] == 0x33 { return false; }
        if state == SourceWait || state == TargetWait {
          if frame.data[2] == 0x55 { return true; }
          if frame.identifier != 23 || |frame.data| != 8 || now < phaseUs || now - phaseUs >= REPLY_US
             || d.reply.None? || d.reply.value.NotFinite?
             || (state == TargetWait && d.reply.value.v != plan.target)
             || (state == SourceWait && d.reply.value.v != source && !(plan.recovery && d.reply.value.v == plan.target)) {
            Fail(4, now);
            return true;
          }
          if state == SourceWait { source, state := d.reply.value.v, Write; } else { state := Drain; }
          phaseUs := now;
        }
        return true;
      }
      if locked && frame.IsFeedback() {
        if state != Failed && (frame.data[0] / 16 != DRIVER_DISABLED || frame.data[6] >= 50 || frame.data[7] >= 50) {
          Fail(6, now);
          return true;
        }
        if state == Baseline && now >= phaseUs { return false; }
        if state == Failed {
          disabledObservedUs := 0;
          if now != 0 && now >= plan.startedUs && now >= phaseUs && d.feedback.Some? && d.feedback.value.Resting(0.05) {
            disabledObservedUs := now;
          }
        }
        return true;
      }
      return false;
    }

    method Next(now: nat, p: Platform) returns (sent: Sent)
      modifies this
      ensures (Model(), sent) == Advanced(old(Model()), now, p)
    {
      if state == Idle || state == Done || state == Failed { return NothingSent; }
      if now < plan.startedUs || now - plan.startedUs >= WINDOW_US { Fail(2, now); return NothingSent; }
      if !p.ownerIsLcd || !p.sourcesIdle { Fail(3, now); return NothingSent; }
      var age := if now >= phaseUs then now - phaseUs else U64_MAX;
      if (state == Quiet && age >= QUIET_US) || (state == Settle && age >= SETTLE_US) {
        if now == 0 || evidence.rxBoundaryUs != now { return NothingSent; }
        if !p.packs { Fail(4, now); return NothingSent; }
        state := if state == Quiet then SourceWait else TargetWait;
        phaseUs := now;
        return ReadSent(plan.register);
      }
      if (state == SourceWait || state == TargetWait || state == Baseline) && age >= REPLY_US {
        Fail(2, now);
        return NothingSent;
      }
      if state == Write {
        if now == 0 || evidence.rxBoundaryUs != now { return NothingSent; }
        if !p.packs { Fail(4, now); return NothingSent; }
        writes, state, phaseUs := 1, Settle, now;
        return WriteSent(plan.register, plan.target);
      }
      if state == Drain && age >= DRAIN_US {
        if !p.discoveryBegins { Fail(5, now); return NothingSent; }
        state, evidence := Discovery, evidence.(identity := UNKNOWN);
      }
      if state == Discovery {
        sent := Discover(now, p);
        return;
      }
      if state == Disable {
        if now == 0 || evidence.rxBoundaryUs != now { return NothingSent; }
        if !p.packs { Fail(6, now); return NothingSent; }
        phaseUs, state := now, Baseline;
        return DisableSent;
      }
      if state == Baseline && evidence.feedbackValid && phaseUs <= evidence.feedback.stampUs <= now {
        if !evidence.feedback.Healthy(if plan.register == VELOCITY_REGISTER && plan.target == 5.0 then 0.01 else 0.05) { Fail(6, now); }
        else { state := Done; }
      }
      return NothingSent;
    }

    method Discover(now: nat, p: Platform) returns (sent: Sent)
      modifies this
      ensures (Model(), sent) == DiscoveryStep(old(Model()), now, p)
    {
      if p.discovery == Complete {
        if !evidence.identity.Matches(if plan.register == POSITION_REGISTER then plan.target else 12.5,
                             if plan.register == VELOCITY_REGISTER then plan.target else 200.0) { Fail(5, now); }
        else { state := Disable; }
      } else if p.discovery == Broken {
        Fail(5, now);
      }
      return if p.discovery == FrameReady then DiscoverySent else NothingSent;
    }

    method PopDisable(packs: bool) returns (popped: bool)
      modifies this`disablePending
      ensures popped == (old(disablePending) && packs)
      ensures Model() == if popped then old(Model()).(disablePending := false) else old(Model())
    {
      if !disablePending || !packs { return false; }
      disablePending := false;
      return true;
    }
  }
}
