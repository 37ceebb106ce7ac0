/** The static state of User/joint_controller.c updated in place, refining module JointStartup. */
module JointControllerState {
  import opened Common
  import opened JointStartup

  class JointController {
    const link: Link
    const setup: Setup
    var stage: Stage
    var safety: Safety
    var masks: Masks
    var progress: Progress
    var ranges: seq<Ranges>
    var selected: nat
    var feedbackMs: seq<nat>
    var initMs: nat
    var pollMs: nat
    var wire: seq<Attempt>

    ghost function Model(): Controller
      reads this
    {
      Controller(stage, safety, setup, masks, progress, ranges, selected, feedbackMs, initMs, pollMs, wire)
    }

    ghost predicate Valid()
      reads this
    {
      Model().Sized()
    }

    constructor (link: Link, setup: Setup, accepted: bool, now: nat)
      requires setup.Valid()
      ensures Valid() && Model() == Initial(setup, accepted, now) && this.link == link
    {
      this.link, this.setup := link, setup;
      stage, safety := if accepted then BootDelay else Fault, if accepted then NoSafety else InvalidCommand;
      masks, progress, selected := NO_MASKS, Progress(0, 0, false, 0, 0, now), 0;
      ranges, feedbackMs := seq(JOINTS, _ => NO_RANGES), seq(JOINTS, _ => 0);
      initMs, pollMs, wire := now, now, [];
    }

    method SendFrame(c: Command) returns (ok: bool)
      modifies this`wire
      ensures (Model(), ok) == Transmit(old(Model()), c, link)
    {
      ok := link(|wire|);
      wire := wire + [Attempt(c, ok)];
    }

    method DisableEach(mask: set<nat>)
      modifies this`wire
      ensures Model() == DisableAll(old(Model()), mask, 0, link)
    {
      var j := 0;
      while j < JOINTS
        invariant 0 <= j <= JOINTS
        invariant DisableAll(Model(), mask, j, link) == DisableAll(old(Model()), mask, 0, link)
      {
        if j in mask { var _ := SendFrame(Disable(j)); }
        j := j + 1;
      }
    }

    method DisableUntilRejected(mask: set<nat>) returns (ok: bool)
      modifies this`wire
      ensures (Model(), ok) == DisableUntil(old(Model()), mask, 0, link)
    {
      var j := 0;
      while j < JOINTS
        invariant 0 <= j <= JOINTS
        invariant DisableUntil(Model(), mask, j, link) == DisableUntil(old(Model()), mask, 0, link)
      {
        if j in mask {
          ok := SendFrame(Disable(j));
          if !ok { return; }
        }
        j := j + 1;
      }
      return true;
    }

    method SafetyShutdown(reason: Safety, canTransmit: bool)
      modifies this`safety, this`stage, this`masks, this`wire
      ensures Model() == Shutdown(old(Model()), reason, canTransmit, link)
    {
      hide DisableAll;
      var on := masks.enabled + masks.pending;
      safety, stage := reason, Fault;
      masks := masks.(enabled := {}, pending := {});
      if !canTransmit {
        masks := masks.(owed := {});
        return;
      }
      DisableEach(on);
    }

    method RequestIsDue(now: nat) returns (due: bool)
      modifies this`safety, this`stage, this`masks, this`wire, this`progress
      ensures (Model(), due) == Due(old(Model()), now, link)
    {
      hide Shutdown;
      if !progress.waiting { return true; }
      if Elapsed32(now, progress.requestMs) < STARTUP_TIMEOUT_MS { return false; }
      progress := progress.(waiting := false, retries := progress.retries + 1);
      if progress.retries > RETRY_LIMIT {
        SafetyShutdown(StartupTimeout, true);
        return false;
      }
      return true;
    }

    method SubmitStartupFrame(c: Command, now: nat)
      modifies this`safety, this`stage, this`masks, this`wire, this`progress
      ensures Model() == SendRequest(old(Model()), c, now, link)
    {
      hide Shutdown;
      var ok := SendFrame(c);
      if !ok {
        SafetyShutdown(CanTransmit, true);
        return;
      }
      progress := progress.(waiting := true, requestMs := now);
    }

    method SkipInactive(index: nat, width: nat, items: nat) returns (next: nat)
      requires width > 0 && items == width * JOINTS
      ensures next == Skipped(setup.active, index, width, items)
    {
      next := index;
      while next < items
        invariant Skipped(setup.active, next, width, items) == Skipped(setup.active, index, width, items)
        decreases items - next
      {
        var joint := next / width;
        if joint in setup.active { return; }
        NextItem(next, width);
        next := (joint + 1) * width;
      }
    }

    method ServiceModeSetup(now: nat)
      modifies this`safety, this`stage, this`masks, this`wire, this`progress
      ensures Model() == ServiceModes(old(Model()), now, link)
    {
      hide Shutdown, Skipped, Due, SendRequest;
      var index := SkipInactive(progress.modeIndex, 2, MODE_ITEMS);
      progress := progress.(modeIndex := index);
      if progress.modeIndex >= MODE_ITEMS {
        if !(setup.active <= masks.modeReady) {
          SafetyShutdown(ModeMismatch, true);
          return;
        }
        progress, stage := progress.(waiting := false, retries := 0), RangeDiscovery;
        return;
      }
      var due := RequestIsDue(now);
      if due { SubmitStartupFrame(ModeRequest(progress.modeIndex), now); }
    }

    method ServiceFeedback(now: nat)
      modifies this`safety, this`stage, this`masks, this`wire, this`progress
      ensures Model() == CollectFeedback(old(Model()), now, link)
    {
      hide Shutdown, DisableUntil;
      var missing := setup.active - masks.feedbackReady;
      if missing == {} {
        stage := Ready;
        return;
      }
      if progress.polls != 0 && Elapsed32(now, progress.requestMs) < STARTUP_TIMEOUT_MS { return; }
      if progress.polls > RETRY_LIMIT {
        SafetyShutdown(StartupTimeout, true);
        return;
      }
      var ok := DisableUntilRejected(missing);
      if !ok {
        SafetyShutdown(CanTransmit, true);
        return;
      }
      progress := progress.(polls := progress.polls + 1, requestMs := now);
    }

    method ServiceRangeDiscovery(now: nat)
      modifies this`safety, this`stage, this`masks, this`wire, this`progress
      ensures Model() == ServiceRanges(old(Model()), now, link)
    {
      hide Shutdown, Skipped, Due, SendRequest, CollectFeedback;
      var index := SkipInactive(progress.rangeIndex, 3, RANGE_ITEMS);
      progress := progress.(rangeIndex := index);
      if progress.rangeIndex >= RANGE_ITEMS {
        if !(setup.active <= masks.rangesReady) {
          SafetyShutdown(StartupTimeout, true);
          return;
        }
        ServiceFeedback(now);
        return;
      }
      var due := RequestIsDue(now);
      if due { SubmitStartupFrame(RangeRequest(progress.rangeIndex), now); }
    }

    method ServiceStartupStages(now: nat)
      modifies this`safety, this`stage, this`masks, this`wire, this`progress
      ensures Model() == ServiceStartup(old(Model()), now, link)
    {
      hide ServiceModes, ServiceRanges;
      if safety != NoSafety { return; }
      if stage == BootDelay {
        if Elapsed32(now, initMs) < BOOT_DELAY_MS { return; }
        stage := ModeSetup;
      }
      if stage == ModeSetup { ServiceModeSetup(now); }
      else if stage == RangeDiscovery { ServiceRangeDiscovery(now); }
    }

    method ServiceReadyFeedback(now: nat)
      modifies this`safety, this`stage, this`masks, this`wire, this`pollMs
      ensures Model() == ServiceReady(old(Model()), now, link)
    {
      hide Shutdown, DisableUntil;
      if stage != Ready || masks.enabled != {} || Elapsed32(now, pollMs) < POLL_MS { return; }
      var ok := DisableUntilRejected(setup.active);
      if !ok {
        SafetyShutdown(CanTransmit, true);
        return;
      }
      pollMs := now;
    }

    method IsSilent(mask: set<nat>, now: nat) returns (silent: bool)
      requires Valid()
      ensures silent == Silent(Model(), mask, now)
    {
      var j := 0;
      while j < JOINTS
        invariant 0 <= j <= JOINTS
        invariant forall i | 0 <= i < j && i in mask :: Elapsed32(now, feedbackMs[i]) <= FEEDBACK_TIMEOUT_MS
      {
        if j in mask && Elapsed32(now, feedbackMs[j]) > FEEDBACK_TIMEOUT_MS { return true; }
        j := j + 1;
      }
      return false;
    }

    method SendSetpoints() returns (ok: bool)
      modifies this`wire
      ensures (Model(), ok) == Setpoints(old(Model()), 0, link)
    {
      var j := 0;
      while j < JOINTS
        invariant 0 <= j <= JOINTS
        invariant Setpoints(Model(), j, link) == Setpoints(old(Model()), 0, link)
      {
        if j in masks.enabled {
          ok := SendFrame(Setpoint(j));
          if !ok { return; }
        }
        j := j + 1;
      }
      return true;
    }

    method ServiceControl(now: nat, motion: Motion)
      requires Valid()
      modifies this`safety, this`stage, this`masks, this`wire
      ensures Model() == ServiceMotion(old(Model()), now, motion, link)
    {
      hide Shutdown, Setpoints, Silent;
      if masks.enabled == {} { return; }
      if motion == Expired {
        SafetyShutdown(CommandTimeout, true);
        return;
      }
      var silent := IsSilent(masks.enabled, now);
      if silent {
        SafetyShutdown(FeedbackTimeout, true);
        return;
      }
      if motion == Unsampled {
        SafetyShutdown(CanTransmit, true);
        return;
      }
      if motion.finished { stage := Holding; }
      var ok := SendSetpoints();
      if !ok { SafetyShutdown(CanTransmit, true); }
    }

    method Step(now: nat, motion: Motion)
      requires Valid()
      modifies this
      ensures Model() == Stepped(old(Model()), now, motion, link)
    {
      hide DisableAll, ServiceStartup, ServiceReady, ServiceMotion, Shutdown, Silent;
      PreparedKeepsShape(Model(), now, link);
      var owed := masks.owed;
      masks := masks.(owed := {});
      DisableEach(owed);
      ServiceStartupStages(now);
      ServiceReadyFeedback(now);
      if stage == Enabling {
        var silent := IsSilent(masks.pending, now);
        if silent {
          SafetyShutdown(FeedbackTimeout, true);
          return;
        }
        if !(masks.pending <= masks.enabled) { return; }
        stage, masks := Holding, masks.(pending := {});
      }
      ServiceControl(now, motion);
    }

    method StartAllJoints(now: nat) returns (verdict: Verdict)
      requires Valid()
      modifies this`safety, this`stage, this`masks, this`wire, this`feedbackMs
      ensures (Model(), verdict) == StartAll(old(Model()), now, link)
    {
      hide Shutdown;
      if masks.faulty != {} { return SafetyLatched; }
      if !(setup.active <= masks.modeReady && setup.active <= masks.rangesReady && setup.active <= masks.feedbackReady) { return NotReady; }
      masks := masks.(enabled := {}, pending := {});
      ghost var cleared := Model();
      var j := 0;
      while j < JOINTS
        invariant 0 <= j <= JOINTS && Valid()
        invariant EnableFrom(Model(), j, now, link) == EnableFrom(cleared, 0, now, link)
      {
        if j in setup.active {
          var ok := SendFrame(Enable(j));
          if !ok {
            SafetyShutdown(CanTransmit, true);
            return CanError;
          }
          masks := masks.(pending := masks.pending + {j});
          feedbackMs := feedbackMs[j := now];
        }
        j := j + 1;
      }
      stage := Enabling;
      return Accepted;
    }

    method OnModeRegister(j: nat, raw: nat)
      requires j < JOINTS
      modifies this`safety, this`stage, this`masks, this`wire, this`progress
      ensures Model() == OnModeReply(old(Model()), j, raw, link)
    {
      hide Shutdown;
      if stage != ModeSetup || !progress.waiting || progress.modeIndex / 2 != j { return; }
      if raw != CONTROL_MODE {
        SafetyShutdown(ModeMismatch, true);
        return;
      }
      if progress.modeIndex % 2 == 1 { masks := masks.(modeReady := masks.modeReady + {j}); }
      progress := progress.(modeIndex := progress.modeIndex + 1, waiting := false, retries := 0);
    }

    method OnRangeRegister(j: nat, register: nat, value: Float)
      requires Valid() && j < JOINTS
      modifies this`ranges, this`masks, this`progress
      ensures Valid() && Model() == OnRangeReply(old(Model()), j, register, value)
    {
      if stage != RangeDiscovery || !progress.waiting || progress.rangeIndex / 3 != j
         || register != RANGE_REGISTER + progress.rangeIndex % 3 || value.NotFinite? || value.v <= 0.0 { return; }
      var k := progress.rangeIndex % 3;
      var r := Ranges(ranges[j].values[k := value.v], ranges[j].known + {k});
      ranges := ranges[j := r];
      if r.known == {0, 1, 2} { masks := masks.(rangesReady := masks.rangesReady + {j}); }
      progress := progress.(rangeIndex := progress.rangeIndex + 1, waiting := false, retries := 0);
    }

    /** Feedback of joint j counts only once its ranges are known; a motor fault or a failed
        conversion stops everything. */
    method OnFeedbackReport(j: nat, f: Frame, now: nat)
      requires Valid() && j < JOINTS && f.Report?
      modifies this`safety, this`stage, this`masks, this`wire, this`feedbackMs
      ensures Model() == OnReport(old(Model()), j, f, now, link)
    {
      hide Shutdown;
      if f.motor != setup.motors[j] || j !in masks.rangesReady || !f.decodes { return; }
      if !f.converts {
        SafetyShutdown(InvalidCommand, true);
        return;
      }
      masks := masks.(feedbackReady := masks.feedbackReady + {j});
      feedbackMs := feedbackMs[j := now];
      if f.state >= 8 {
        safety, stage := MotorFault, Fault;
        masks := masks.(faulty := masks.faulty + {j}, owed := masks.owed + masks.enabled, enabled := {});
        return;
      }
      masks := masks.(enabled := if f.state == 1 then masks.enabled + {j} else masks.enabled - {j});
      if stage == Enabling && masks.pending != {} && masks.pending <= masks.enabled {
        stage, masks := Holding, masks.(pending := {});
      }
    }

    /** Which active joint answers with this master identifier. */
    method FindJoint(master: nat) returns (j: Option<nat>)
      requires Valid()
      ensures j == JointOf(setup, master, 0)
    {
      var k := 0;
      while k < JOINTS
        invariant 0 <= k <= JOINTS
        invariant JointOf(setup, master, k) == JointOf(setup, master, 0)
      {
        if k in setup.active && setup.masters[k] == master { return Some(k); }
        k := k + 1;
      }
      return None;
    }

    method OnCanFrame(f: Frame, now: nat)
      requires Valid()
      modifies this
      ensures Model() == OnFrame(old(Model()), f, now, link)
    {
      hide OnModeReply, OnRangeReply, OnReport;
      var j := FindJoint(f.master);
      if j.None? { return; }
      match f
      case Reply(_, _, motor, register, raw, value) =>
        if !IsRegister(register) || motor != setup.motors[j.value] { return; }
        if register == MODE_REGISTER { OnModeRegister(j.value, raw); }
        else { OnRangeRegister(j.value, register, value); }
      case Report(_, _, _, _, _) => OnFeedbackReport(j.value, f, now);
    }

    method StartSelectedJoint(now: nat) returns (verdict: Verdict)
      requires Valid()
      modifies this`safety, this`stage, this`masks, this`wire, this`feedbackMs
      ensures (Model(), verdict) == StartSelected(old(Model()), now, link)
    {
      if selected < 1 || selected > JOINTS || selected - 1 !in setup.active { return InvalidSelection; }
      var j := selected - 1;
      if j in masks.faulty { return SafetyLatched; }
      if !(j in masks.modeReady && j in masks.rangesReady && j in masks.feedbackReady) { return NotReady; }
      var ok := SendFrame(Enable(j));
      if !ok {
        safety := CanTransmit;
        return CanError;
      }
      stage, masks := Enabling, masks.(enabled := {}, pending := {j});
      feedbackMs := feedbackMs[j := now];
      return Accepted;
    }

    method Submit(request: Request, now: nat) returns (verdict: Verdict)
      requires Valid()
      modifies this
      ensures (Model(), verdict) == Submitted(old(Model()), request, now, link)
    {
      hide Shutdown, StartAll, StartSelected;
      if safety != NoSafety && !request.DisableRequest? { return SafetyLatched; }
      match request
      case Select(j) =>
        if j < 1 || j > JOINTS || j - 1 !in setup.active { return InvalidSelection; }
        if masks.enabled != {} { return Refused; }
        selected := j;
        return Accepted;
      case Start =>
        if setup.locked { verdict := StartSelectedJoint(now); } else { verdict := StartAllJoints(now); }
      case Stop =>
        stage := if masks.enabled != {} then Holding else Ready;
        return Accepted;
      case DisableRequest =>
        var kept := safety;
        SafetyShutdown(kept, kept != BusOff && kept != CanTransmit);
        stage := if kept == NoSafety then Ready else Fault;
        return Accepted;
      case Move(plan) =>
        if masks.enabled == {} { return Refused; }
        match plan {
          case OutsideLimits =>
            SafetyShutdown(InvalidCommand, true);
            return Refused;
          case Unplannable => return Refused;
          case Begins => stage := Moving; return Accepted;
          case AlreadyThere => stage := Holding; return Accepted;
        }
    }
  }

  lemma NextItem(index: nat, width: nat)
    requires width > 0
    ensures (index / width + 1) * width > index
  {
    assert index == index / width * width + index % width;
    assert (index / width + 1) * width == index / width * width + width;
  }
}
