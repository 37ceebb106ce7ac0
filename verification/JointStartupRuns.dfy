/** What every run of the seven-joint controller keeps, for any set of active joints. */
module JointStartupRuns {
  import opened Common
  import opened JointStartup

  datatype Op =
    | Step(now: nat, motion: Motion)
    | Receive(frame: Frame, now: nat)
    | Submit(request: Request, now: nat)
    | Fail(reason: Safety, canTransmit: bool)

  /** Bus-off, a failed bus start and an invalid command arrive as shutdowns. */
  function Do(s: Controller, op: Op, link: Link): Controller
    requires s.Sized()
  {
    match op
    case Step(now, motion) => Stepped(s, now, motion, link)
    case Receive(f, now) => OnFrame(s, f, now, link)
    case Submit(q, now) => Submitted(s, q, now, link).0
    case Fail(reason, canTransmit) => Shutdown(s, reason, canTransmit, link)
  }

  datatype Event = Event(op: Op, pre: Controller, post: Controller)

  ghost predicate IsRun(run: seq<Event>, setup: Setup, accepted: bool, start: nat, link: Link) {
    && setup.Valid()
    && (forall i | 0 <= i < |run| :: run[i].pre.Sized() && run[i].post == Do(run[i].pre, run[i].op, link))
    && (forall i | 0 <= i < |run| - 1 :: run[i].post == run[i + 1].pre)
    && (run != [] ==> run[0].pre == Initial(setup, accepted, start))
  }

  function Final(run: seq<Event>, setup: Setup, accepted: bool, start: nat): Controller
    requires setup.Valid()
  {
    if run == [] then Initial(setup, accepted, start) else run[|run| - 1].post
  }

  // ----- The invariant -----

  /** The mode index says exactly which active joints have confirmed their control mode. */
  predicate ModesFollow(s: Controller) {
    && s.progress.modeIndex <= MODE_ITEMS
    && forall j | 0 <= j < JOINTS :: j in s.masks.modeReady <==> j in s.setup.active && s.progress.modeIndex >= 2 * j + 2
  }

  /** The range index says exactly which ranges of which active joints are known, all positive. */
  predicate RangesFollow(s: Controller)
    requires s.Sized()
  {
    && s.progress.rangeIndex <= RANGE_ITEMS
    && (forall j | 0 <= j < JOINTS :: j in s.masks.rangesReady <==> j in s.setup.active && s.progress.rangeIndex >= 3 * j + 3)
    && (forall j | 0 <= j < JOINTS :: RangesOf(s.ranges[j], j in s.setup.active, s.progress.rangeIndex - 3 * j))
  }

  predicate RangesOf(r: Ranges, active: bool, progress: int)
    requires |r.values| == 3
  {
    && r.known <= {0, 1, 2}
    && (0 in r.known <==> active && progress > 0) && (1 in r.known <==> active && progress > 1) && (2 in r.known <==> active && progress > 2)
    && (0 in r.known ==> r.values[0] > 0.0) && (1 in r.known ==> r.values[1] > 0.0) && (2 in r.known ==> r.values[2] > 0.0)
  }

  predicate Inv(s: Controller) {
    && s.Sized() && ModesFollow(s) && RangesFollow(s)
    && s.masks.modeReady <= s.setup.active && s.masks.rangesReady <= s.setup.active && s.masks.feedbackReady <= s.masks.rangesReady
  }

  /** Knowledge and indices are all the invariant looks at. */
  lemma SameInv(s: Controller, t: Controller)
    requires Inv(s) && t.Sized() && t.setup == s.setup && t.ranges == s.ranges
    requires t.masks.modeReady == s.masks.modeReady && t.masks.rangesReady == s.masks.rangesReady && t.masks.feedbackReady == s.masks.feedbackReady
    requires t.progress.modeIndex == s.progress.modeIndex && t.progress.rangeIndex == s.progress.rangeIndex
    ensures Inv(t)
  {
  }

  // ----- Skipping inactive joints -----

  /** Skipping stops at an active joint's item or past the end, and passes over no active joint. */
  lemma {:induction false} SkippedRules(active: set<nat>, index: nat, width: nat, items: nat)
    requires (width == 2 || width == 3) && items == width * JOINTS && index <= items
    ensures var k := Skipped(active, index, width, items);
            index <= k <= items && (k < items ==> k / width in active) && (k == index || k % width == 0)
            && (forall j | index / width <= j < k / width :: j !in active)
    decreases items - index
  {
    if index < items && index / width !in active {
      NextMultiple(index, width);
      SkippedRules(active, (index / width + 1) * width, width, items);
    }
  }

  lemma NextMultiple(index: nat, width: nat)
    requires (width == 2 || width == 3) && index < width * JOINTS
    ensures index < (index / width + 1) * width <= width * JOINTS
    ensures (index / width + 1) * width / width == index / width + 1 && (index / width + 1) * width % width == 0
  {
    if width == 2 {
      assert (index / 2 + 1) * 2 / 2 == index / 2 + 1;
    } else {
      assert (index / 3 + 1) * 3 / 3 == index / 3 + 1;
    }
  }

  // ----- Each entry point -----

  /** Passing over inactive joints changes no ready bit. */
  lemma ModeSkipKeepsInv(s: Controller)
    requires Inv(s)
    ensures Inv(s.(progress := s.progress.(modeIndex := Skipped(s.setup.active, s.progress.modeIndex, 2, MODE_ITEMS))))
  {
    SkippedRules(s.setup.active, s.progress.modeIndex, 2, MODE_ITEMS);
    hide Skipped, RangesOf;
  }

  lemma RangeSkipKeepsInv(s: Controller)
    requires Inv(s)
    ensures Inv(s.(progress := s.progress.(rangeIndex := Skipped(s.setup.active, s.progress.rangeIndex, 3, RANGE_ITEMS))))
  {
    SkippedRules(s.setup.active, s.progress.rangeIndex, 3, RANGE_ITEMS);
    hide Skipped;
  }

  lemma ShutdownKeepsInv(s: Controller, reason: Safety, canTransmit: bool, link: Link)
    requires Inv(s)
    ensures Inv(Shutdown(s, reason, canTransmit, link))
  {
    ShutdownKeeps(s, reason, canTransmit, link);
    hide Shutdown, ModesFollow, RangesFollow;
    SameInv(s, Shutdown(s, reason, canTransmit, link));
  }

  lemma RequestKeepsInv(s: Controller, c: Command, now: nat, link: Link)
    requires Inv(s)
    ensures Inv(SendRequest(s, c, now, link))
  {
    RequestKeeps(s, c, now, link);
    hide SendRequest, ModesFollow, RangesFollow;
    SameInv(s, SendRequest(s, c, now, link));
  }

  lemma DueKeepsInv(s: Controller, now: nat, link: Link)
    requires Inv(s)
    ensures Inv(Due(s, now, link).0)
  {
    DueKeeps(s, now, link);
    hide Due, ModesFollow, RangesFollow;
    SameInv(s, Due(s, now, link).0);
  }

  lemma ModesKeepInv(s: Controller, now: nat, link: Link)
    requires Inv(s)
    ensures Inv(ServiceModes(s, now, link))
  {
    ModeSkipKeepsInv(s);
    hide Shutdown, Due, SendRequest, Skipped, ModesFollow, RangesFollow;
    var t := s.(progress := s.progress.(modeIndex := Skipped(s.setup.active, s.progress.modeIndex, 2, MODE_ITEMS)));
    ShutdownKeepsInv(t, ModeMismatch, true, link);
    SameInv(t, t.(progress := t.progress.(waiting := false, retries := 0), stage := RangeDiscovery));
    DueKeepsInv(t, now, link);
    RequestKeepsInv(Due(t, now, link).0, ModeRequest(Due(t, now, link).0.progress.modeIndex), now, link);
  }

  lemma CollectKeepsInv(t: Controller, now: nat, link: Link)
    requires Inv(t)
    ensures Inv(CollectFeedback(t, now, link))
  {
    hide Shutdown, DisableUntil, ModesFollow, RangesFollow;
    var missing := t.setup.active - t.masks.feedbackReady;
    SameInv(t, t.(stage := Ready));
    ShutdownKeepsInv(t, StartupTimeout, true, link);
    DisableUntilKeeps(t, missing, 0, link);
    var u := DisableUntil(t, missing, 0, link).0;
    SameInv(t, u);
    ShutdownKeepsInv(u, CanTransmit, true, link);
    SameInv(u, u.(progress := u.progress.(polls := u.progress.polls + 1, requestMs := now)));
  }

  lemma RangesKeepInv(s: Controller, now: nat, link: Link)
    requires Inv(s)
    ensures Inv(ServiceRanges(s, now, link))
  {
    RangeSkipKeepsInv(s);
    hide Shutdown, Due, SendRequest, Skipped, CollectFeedback, ModesFollow, RangesFollow;
    var t := s.(progress := s.progress.(rangeIndex := Skipped(s.setup.active, s.progress.rangeIndex, 3, RANGE_ITEMS)));
    ShutdownKeepsInv(t, StartupTimeout, true, link);
    CollectKeepsInv(t, now, link);
    DueKeepsInv(t, now, link);
    RequestKeepsInv(Due(t, now, link).0, RangeRequest(Due(t, now, link).0.progress.rangeIndex), now, link);
  }

  lemma PreparedKeepsInv(s: Controller, now: nat, link: Link)
    requires Inv(s)
    ensures Inv(Prepared(s, now, link))
  {
    hide DisableAll, ServiceModes, ServiceRanges, ModesFollow, RangesFollow, ServiceReady;
    DisableAllKeeps(s.(masks := s.masks.(owed := {})), s.masks.owed, 0, link);
    var p := PayOwed(s, link);
    SameInv(s, p);
    var a := if p.stage == BootDelay then p.(stage := ModeSetup) else p;
    SameInv(p, a);
    ModesKeepInv(a, now, link);
    RangesKeepInv(a, now, link);
    var t := ServiceStartup(p, now, link);
    assert Inv(t);
    ReadyKeepsShape(t, now, link);
    hide ServiceStartup, PayOwed;
    SameInv(t, ServiceReady(t, now, link));
  }

  lemma {:induction false} SetpointsKeep(s: Controller, j: nat, link: Link)
    requires j <= JOINTS
    ensures Setpoints(s, j, link).0 == s.(wire := Setpoints(s, j, link).0.wire)
    decreases JOINTS - j
  {
    if j < JOINTS { SetpointsKeep(if j in s.masks.enabled then Transmit(s, Setpoint(j), link).0 else s, j + 1, link); }
  }

  lemma MotionKeepsInv(s: Controller, now: nat, motion: Motion, link: Link)
    requires Inv(s)
    ensures Inv(ServiceMotion(s, now, motion, link))
  {
    hide Shutdown, Setpoints, Silent, ModesFollow, RangesFollow;
    ShutdownKeepsInv(s, CommandTimeout, true, link);
    ShutdownKeepsInv(s, FeedbackTimeout, true, link);
    ShutdownKeepsInv(s, CanTransmit, true, link);
    if motion.Sampled? {
      var t := if motion.finished then s.(stage := Holding) else s;
      SameInv(s, t);
      SetpointsKeep(t, 0, link);
      SameInv(t, Setpoints(t, 0, link).0);
      ShutdownKeepsInv(Setpoints(t, 0, link).0, CanTransmit, true, link);
    }
  }

  lemma StepKeepsInv(s: Controller, now: nat, motion: Motion, link: Link)
    requires Inv(s)
    ensures Inv(Stepped(s, now, motion, link))
  {
    hide Shutdown, ServiceMotion, Silent, ModesFollow, RangesFollow, Prepared;
    PreparedKeepsInv(s, now, link);
    var t := Prepared(s, now, link);
    ShutdownKeepsInv(t, FeedbackTimeout, true, link);
    MotionKeepsInv(t, now, motion, link);
    var h := t.(stage := Holding, masks := t.masks.(pending := {}));
    SameInv(t, h);
    MotionKeepsInv(h, now, motion, link);
  }

  lemma ModeReplyKeepsInv(s: Controller, j: nat, raw: nat, link: Link)
    requires Inv(s) && j < JOINTS && j in s.setup.active
    ensures Inv(OnModeReply(s, j, raw, link))
  {
    hide Shutdown, RangesFollow;
    ShutdownKeepsInv(s, ModeMismatch, true, link);
    var t := OnModeReply(s, j, raw, link);
    if s.stage == ModeSetup && s.progress.waiting && s.progress.modeIndex / 2 == j && raw == CONTROL_MODE {
      assert ModesFollow(t);
      RangesUntouched(s, t);
    }
  }

  lemma RangesUntouched(s: Controller, t: Controller)
    requires s.Sized() && t.Sized() && RangesFollow(s) && t.setup == s.setup && t.ranges == s.ranges
    requires t.masks.rangesReady == s.masks.rangesReady && t.progress.rangeIndex == s.progress.rangeIndex
    ensures RangesFollow(t)
  {
  }

  lemma RangeReplyKeepsInv(s: Controller, j: nat, register: nat, value: Float)
    requires Inv(s) && j < JOINTS && j in s.setup.active
    ensures Inv(OnRangeReply(s, j, register, value))
  {
    var t := OnRangeReply(s, j, register, value);
    if t != s {
      var k := s.progress.rangeIndex % 3;
      assert s.progress.rangeIndex == 3 * j + k;
      assert RangesOf(s.ranges[j], true, k);
      assert RangesOf(t.ranges[j], true, k + 1);
      assert t.ranges[j].known == {0, 1, 2} <==> k == 2;
      forall i | 0 <= i < JOINTS && i != j
        ensures RangesOf(t.ranges[i], i in t.setup.active, t.progress.rangeIndex - 3 * i)
      {
        assert RangesOf(s.ranges[i], i in s.setup.active, s.progress.rangeIndex - 3 * i);
      }
    }
  }

  lemma ReportKeepsInv(s: Controller, j: nat, f: Frame, now: nat, link: Link)
    requires Inv(s) && j < JOINTS && f.Report?
    ensures Inv(OnReport(s, j, f, now, link))
  {
    hide Shutdown, RangesFollow, ModesFollow;
    ShutdownKeepsInv(s, InvalidCommand, true, link);
    var t := OnReport(s, j, f, now, link);
    if f.motor == s.setup.motors[j] && j in s.masks.rangesReady && f.decodes && f.converts { ModesUntouched(s, t); RangesUntouched(s, t); }
  }

  lemma ModesUntouched(s: Controller, t: Controller)
    requires ModesFollow(s) && t.setup == s.setup && t.masks.modeReady == s.masks.modeReady && t.progress.modeIndex == s.progress.modeIndex
    ensures ModesFollow(t)
  {
  }

  lemma FrameKeepsInv(s: Controller, f: Frame, now: nat, link: Link)
    requires Inv(s)
    ensures Inv(OnFrame(s, f, now, link))
  {
    hide Inv, OnModeReply, OnRangeReply, OnReport;
    SizedInv(s);
    var j := JointOf(s.setup, f.master, 0);
    if j.Some? {
      match f
      case Reply(_, _, motor, register, raw, value) =>
        ModeReplyKeepsInv(s, j.value, raw, link);
        RangeReplyKeepsInv(s, j.value, register, value);
      case Report(_, _, _, _, _) => ReportKeepsInv(s, j.value, f, now, link);
    }
  }

  lemma SizedInv(s: Controller)
    requires Inv(s)
    ensures s.Sized()
  {
  }

  lemma {:induction false} EnableKeepsInv(s: Controller, j: nat, now: nat, link: Link)
    requires Inv(s) && j <= JOINTS
    ensures Inv(EnableFrom(s, j, now, link).0)
    decreases JOINTS - j
  {
    hide Shutdown, ModesFollow, RangesFollow;
    if j < JOINTS && j !in s.setup.active {
      EnableKeepsInv(s, j + 1, now, link);
    } else if j < JOINTS {
      var t := Transmit(s, Enable(j), link).0;
      SameInv(s, t);
      ShutdownKeepsInv(t, CanTransmit, true, link);
      var u := t.(masks := t.masks.(pending := t.masks.pending + {j}), feedbackMs := t.feedbackMs[j := now]);
      SameInv(t, u);
      EnableKeepsInv(u, j + 1, now, link);
    }
  }

  lemma SubmitKeepsInv(s: Controller, q: Request, now: nat, link: Link)
    requires Inv(s)
    ensures Inv(Submitted(s, q, now, link).0)
  {
    hide Shutdown, ModesFollow, RangesFollow, EnableFrom;
    ShutdownKeepsInv(s, InvalidCommand, true, link);
    ShutdownKeepsInv(s, s.safety, s.safety != BusOff && s.safety != CanTransmit, link);
    var d := Shutdown(s, s.safety, s.safety != BusOff && s.safety != CanTransmit, link);
    SameInv(d, d.(stage := if s.safety == NoSafety then Ready else Fault));
    var cleared := s.(masks := s.masks.(enabled := {}, pending := {}));
    SameInv(s, cleared);
    EnableKeepsInv(cleared, 0, now, link);
    var e := EnableFrom(cleared, 0, now, link).0;
    SameInv(e, e.(stage := Enabling));
    SameInv(s, s.(stage := if s.masks.enabled != {} then Holding else Ready));
    SameInv(s, s.(stage := Moving));
    SameInv(s, s.(stage := Holding));
    SelectedKeepsInv(s, now, link);
    if q.Select? { SameInv(s, s.(selected := q.joint)); }
    hide StartSelected, Inv;
  }

  lemma SelectedKeepsInv(s: Controller, now: nat, link: Link)
    requires Inv(s)
    ensures Inv(StartSelected(s, now, link).0)
  {
    hide ModesFollow, RangesFollow, Confirmed;
    SameInv(s, StartSelected(s, now, link).0);
  }

  lemma OpKeepsInv(s: Controller, op: Op, link: Link)
    requires Inv(s)
    ensures Inv(Do(s, op, link))
  {
    hide Inv, Stepped, OnFrame, Submitted, Shutdown;
    SizedInv(s);
    match op
    case Step(now, motion) => StepKeepsInv(s, now, motion, link);
    case Receive(f, now) => FrameKeepsInv(s, f, now, link);
    case Submit(q, now) => SubmitKeepsInv(s, q, now, link);
    case Fail(reason, canTransmit) => ShutdownKeepsInv(s, reason, canTransmit, link);
  }

  lemma InitialInv(setup: Setup, accepted: bool, start: nat)
    requires setup.Valid()
    ensures Inv(Initial(setup, accepted, start))
  {
  }

  /** Every reachable state keeps the index rules, for any mask of active joints. */
  lemma {:induction false} RunKeepsInv(run: seq<Event>, setup: Setup, accepted: bool, start: nat, link: Link)
    requires IsRun(run, setup, accepted, start, link)
    ensures Inv(Final(run, setup, accepted, start))
  {
    hide Inv, Do;
    if run == [] {
      InitialInv(setup, accepted, start);
    } else {
      var last, before := run[|run| - 1], run[..|run| - 1];
      RunKeepsInv(before, setup, accepted, start, link);
      assert last.pre == Final(before, setup, accepted, start);
      OpKeepsInv(last.pre, last.op, link);
    }
  }

  // ----- Results -----

  /** Whatever joints are active, once the mode items are exhausted every active joint confirmed its
      mode, so the missing-mode shutdown cannot be taken; likewise for the missing ranges. */
  lemma MissingBranchesUnreachable(run: seq<Event>, setup: Setup, accepted: bool, start: nat, link: Link)
    requires IsRun(run, setup, accepted, start, link)
    ensures var s := Final(run, setup, accepted, start);
            && (Skipped(s.setup.active, s.progress.modeIndex, 2, MODE_ITEMS) >= MODE_ITEMS ==> s.setup.active <= s.masks.modeReady)
            && (Skipped(s.setup.active, s.progress.rangeIndex, 3, RANGE_ITEMS) >= RANGE_ITEMS ==> s.setup.active <= s.masks.rangesReady)
  {
    RunKeepsInv(run, setup, accepted, start, link);
    var s := Final(run, setup, accepted, start);
    hide Final, RangesOf;
    ModeSkipKeepsInv(s);
    RangeSkipKeepsInv(s);
    hide Skipped;
  }

  /** The indices tell exactly which joints are ready; ready ranges are three positive numbers. */
  lemma IndexDeterminesMasks(run: seq<Event>, setup: Setup, accepted: bool, start: nat, link: Link, j: nat)
    requires IsRun(run, setup, accepted, start, link) && j < JOINTS
    ensures var s := Final(run, setup, accepted, start);
            && (j in s.masks.modeReady <==> j in s.setup.active && s.progress.modeIndex >= 2 * j + 2)
            && (j in s.masks.rangesReady <==> j in s.setup.active && s.progress.rangeIndex >= 3 * j + 3)
            && s.Sized() && (j in s.masks.rangesReady ==> forall k | 0 <= k < 3 :: s.ranges[j].values[k] > 0.0)
  {
    hide Inv, Do;
    RunKeepsInv(run, setup, accepted, start, link);
    IndexRules(Final(run, setup, accepted, start), j);
  }

  lemma IndexRules(s: Controller, j: nat)
    requires Inv(s) && j < JOINTS
    ensures (j in s.masks.modeReady <==> j in s.setup.active && s.progress.modeIndex >= 2 * j + 2)
    ensures (j in s.masks.rangesReady <==> j in s.setup.active && s.progress.rangeIndex >= 3 * j + 3)
    ensures s.Sized() && (j in s.masks.rangesReady ==> forall k | 0 <= k < 3 :: s.ranges[j].values[k] > 0.0)
  {
    assert RangesOf(s.ranges[j], j in s.setup.active, s.progress.rangeIndex - 3 * j);
  }

  // ----- ENABLE and mode requests -----

  /** The wire grew, and the new frames neither enable a joint nor ask about a mode. */
  predicate Quiet(before: seq<Attempt>, after: seq<Attempt>) {
    before <= after && forall k | |before| <= k < |after| :: !after[k].command.Enable? && !after[k].command.ModeRequest?
  }

  /** The wire grew, and the new frames ask about no mode item but this one. */
  predicate Asks(before: seq<Attempt>, after: seq<Attempt>, item: nat) {
    before <= after && forall k | |before| <= k < |after| :: after[k].command.ModeRequest? ==> after[k].command.item == item
  }

  predicate NoEnable(before: seq<Attempt>, after: seq<Attempt>) {
    before <= after && forall k | |before| <= k < |after| :: !after[k].command.Enable?
  }

  predicate Sends(before: seq<Attempt>, after: seq<Attempt>, item: nat) {
    NoEnable(before, after) && Asks(before, after, item)
  }

  lemma {:induction false} DisableAllSends(s: Controller, mask: set<nat>, j: nat, link: Link)
    requires j <= JOINTS
    ensures Quiet(s.wire, DisableAll(s, mask, j, link).wire)
    decreases JOINTS - j
  {
    if j < JOINTS { DisableAllSends(if j in mask then Transmit(s, Disable(j), link).0 else s, mask, j + 1, link); }
  }

  lemma {:induction false} DisableUntilSends(s: Controller, mask: set<nat>, j: nat, link: Link)
    requires j <= JOINTS
    ensures Quiet(s.wire, DisableUntil(s, mask, j, link).0.wire)
    decreases JOINTS - j
  {
    if j < JOINTS { DisableUntilSends(if j in mask then Transmit(s, Disable(j), link).0 else s, mask, j + 1, link); }
  }

  lemma {:induction false} SetpointsSend(s: Controller, j: nat, link: Link)
    requires j <= JOINTS
    ensures Quiet(s.wire, Setpoints(s, j, link).0.wire)
    decreases JOINTS - j
  {
    if j < JOINTS { SetpointsSend(if j in s.masks.enabled then Transmit(s, Setpoint(j), link).0 else s, j + 1, link); }
  }

  lemma ShutdownSends(s: Controller, reason: Safety, canTransmit: bool, link: Link)
    ensures Quiet(s.wire, Shutdown(s, reason, canTransmit, link).wire)
  {
    hide DisableAll;
    DisableAllSends(s.(safety := reason, stage := Fault, masks := s.masks.(enabled := {}, pending := {})), s.masks.enabled + s.masks.pending, 0, link);
  }

  lemma Silence(a: seq<Attempt>, b: seq<Attempt>, c: seq<Attempt>, item: nat)
    requires (Quiet(a, b) && Sends(b, c, item)) || (Sends(a, b, item) && Quiet(b, c))
    ensures Sends(a, c, item)
  {
  }

  lemma StartupSends(s: Controller, now: nat, link: Link)
    ensures Sends(s.wire, Prepared(s, now, link).wire, Prepared(s, now, link).progress.modeIndex)
  {
    hide Shutdown, DisableAll, DisableUntil, Skipped, Quiet, Sends;
    DisableAllSends(s.(masks := s.masks.(owed := {})), s.masks.owed, 0, link);
    var p := PayOwed(s, link);
    ServiceSends(p, now, link);
    var t := ServiceStartup(p, now, link);
    Silence(s.wire, p.wire, t.wire, t.progress.modeIndex);
    ReadySends(t, now, link);
    ReadyKeepsShape(t, now, link);
    hide ServiceStartup, ServiceReady, PayOwed;
    Silence(s.wire, t.wire, Prepared(s, now, link).wire, t.progress.modeIndex);
  }

  lemma ReadySends(s: Controller, now: nat, link: Link)
    ensures Quiet(s.wire, ServiceReady(s, now, link).wire)
  {
    hide Shutdown, DisableUntil;
    DisableUntilSends(s, s.setup.active, 0, link);
    ShutdownSends(DisableUntil(s, s.setup.active, 0, link).0, CanTransmit, true, link);
  }

  lemma ServiceSends(s: Controller, now: nat, link: Link)
    ensures Sends(s.wire, ServiceStartup(s, now, link).wire, ServiceStartup(s, now, link).progress.modeIndex)
  {
    var t := if s.stage == BootDelay then s.(stage := ModeSetup) else s;
    ModesSend(t, now, link);
    RangesSend(t, now, link);
    hide ServiceModes, ServiceRanges;
  }

  lemma RequestSends(s: Controller, c: Command, now: nat, link: Link)
    requires c.RangeRequest? || c.ModeRequest?
    ensures c.RangeRequest? ==> Quiet(s.wire, SendRequest(s, c, now, link).wire)
    ensures Sends(s.wire, SendRequest(s, c, now, link).wire, c.item)
  {
    hide Shutdown;
    ShutdownSends(Transmit(s, c, link).0, CanTransmit, true, link);
  }

  lemma DueSends(s: Controller, now: nat, link: Link)
    ensures Quiet(s.wire, Due(s, now, link).0.wire)
  {
    hide Shutdown;
    ShutdownSends(s.(progress := s.progress.(waiting := false, retries := s.progress.retries + 1)), StartupTimeout, true, link);
  }

  lemma ModesSend(s: Controller, now: nat, link: Link)
    ensures Sends(s.wire, ServiceModes(s, now, link).wire, ServiceModes(s, now, link).progress.modeIndex)
  {
    hide Shutdown, Due, SendRequest, Skipped;
    var t := s.(progress := s.progress.(modeIndex := Skipped(s.setup.active, s.progress.modeIndex, 2, MODE_ITEMS)));
    ShutdownSends(t, ModeMismatch, true, link);
    DueSends(t, now, link);
    var u := Due(t, now, link).0;
    var c := ModeRequest(u.progress.modeIndex);
    RequestSends(u, c, now, link);
    RequestKeeps(u, c, now, link);
    Silence(s.wire, u.wire, SendRequest(u, c, now, link).wire, c.item);
  }

  lemma CollectSends(t: Controller, now: nat, link: Link)
    ensures Quiet(t.wire, CollectFeedback(t, now, link).wire)
  {
    hide Shutdown, DisableUntil;
    var missing := t.setup.active - t.masks.feedbackReady;
    ShutdownSends(t, StartupTimeout, true, link);
    DisableUntilSends(t, missing, 0, link);
    ShutdownSends(DisableUntil(t, missing, 0, link).0, CanTransmit, true, link);
  }

  lemma RangesSend(s: Controller, now: nat, link: Link)
    ensures Quiet(s.wire, ServiceRanges(s, now, link).wire)
  {
    hide Shutdown, Due, SendRequest, Skipped, CollectFeedback;
    var t := s.(progress := s.progress.(rangeIndex := Skipped(s.setup.active, s.progress.rangeIndex, 3, RANGE_ITEMS)));
    ShutdownSends(t, StartupTimeout, true, link);
    CollectSends(t, now, link);
    DueSends(t, now, link);
    RequestSends(Due(t, now, link).0, RangeRequest(Due(t, now, link).0.progress.rangeIndex), now, link);
  }

  lemma StepSends(s: Controller, now: nat, motion: Motion, link: Link)
    requires s.Sized()
    ensures Sends(s.wire, Stepped(s, now, motion, link).wire, Prepared(s, now, link).progress.modeIndex)
  {
    hide Shutdown, Setpoints, Silent, Prepared, Quiet, Sends;
    StartupSends(s, now, link);
    var t := Prepared(s, now, link);
    PreparedKeepsShape(s, now, link);
    EnablingSends(t, now, motion, link);
    Silence(s.wire, t.wire, Stepped(s, now, motion, link).wire, t.progress.modeIndex);
  }

  lemma EnablingSends(t: Controller, now: nat, motion: Motion, link: Link)
    requires t.Sized()
    ensures Quiet(t.wire, ServiceEnabling(t, now, motion, link).wire)
  {
    hide Shutdown, ServiceMotion, Silent;
    ShutdownSends(t, FeedbackTimeout, true, link);
    MotionSends(t, now, motion, link);
    MotionSends(t.(stage := Holding, masks := t.masks.(pending := {})), now, motion, link);
  }

  lemma MotionSends(s: Controller, now: nat, motion: Motion, link: Link)
    requires s.Sized()
    ensures Quiet(s.wire, ServiceMotion(s, now, motion, link).wire)
  {
    hide Shutdown, Setpoints, Silent;
    ShutdownSends(s, FeedbackTimeout, true, link);
    ShutdownSends(s, CommandTimeout, true, link);
    ShutdownSends(s, CanTransmit, true, link);
    if motion.Sampled? {
      var t := if motion.finished then s.(stage := Holding) else s;
      SetpointsSend(t, 0, link);
      ShutdownSends(Setpoints(t, 0, link).0, CanTransmit, true, link);
    }
  }

  lemma FrameSends(s: Controller, f: Frame, now: nat, link: Link)
    requires s.Sized()
    ensures Quiet(s.wire, OnFrame(s, f, now, link).wire)
  {
    hide Shutdown;
    ShutdownSends(s, ModeMismatch, true, link);
    ShutdownSends(s, InvalidCommand, true, link);
  }

  /** New ENABLE frames of a start go to active joints only. */
  lemma {:induction false} EnableFromSends(s: Controller, j: nat, now: nat, link: Link)
    requires s.Sized() && j <= JOINTS
    ensures s.wire <= EnableFrom(s, j, now, link).0.wire
    ensures forall k | |s.wire| <= k < |EnableFrom(s, j, now, link).0.wire| ::
              var c := EnableFrom(s, j, now, link).0.wire[k].command; !c.ModeRequest? && (c.Enable? ==> c.joint in s.setup.active)
    decreases JOINTS - j
  {
    hide Shutdown;
    if j < JOINTS && j !in s.setup.active {
      EnableFromSends(s, j + 1, now, link);
    } else if j < JOINTS {
      var (t, ok) := Transmit(s, Enable(j), link);
      if ok {
        EnableFromSends(t.(masks := t.masks.(pending := t.masks.pending + {j}), feedbackMs := t.feedbackMs[j := now]), j + 1, now, link);
      } else {
        ShutdownSends(t, CanTransmit, true, link);
      }
    }
  }

  /** An ENABLE frame answers a start command, and goes to an active joint whose mode, three positive
      ranges and feedback are all confirmed and which has no motor fault. */
  lemma EnableNeedsConfirmation(run: seq<Event>, setup: Setup, accepted: bool, start: nat, link: Link, i: nat, k: nat)
    requires IsRun(run, setup, accepted, start, link) && i < |run|
    requires |run[i].pre.wire| <= k < |run[i].post.wire| && run[i].post.wire[k].command.Enable?
    ensures run[i].op.Submit? && run[i].op.request.Start? && run[i].pre.safety == NoSafety
    ensures var s, j := run[i].pre, run[i].post.wire[k].command.joint;
            && j < JOINTS && j in s.setup.active && j in s.masks.modeReady && j in s.masks.rangesReady && j in s.masks.feedbackReady
            && j !in s.masks.faulty && forall r | 0 <= r < 3 :: s.ranges[j].values[r] > 0.0
  {
    var s, op := run[i].pre, run[i].op;
    RunKeepsInv(run[..i], setup, accepted, start, link);
    assert s == Final(run[..i], setup, accepted, start);
    match op
    case Step(now, motion) => StepSends(s, now, motion, link); assert false;
    case Receive(f, now) => FrameSends(s, f, now, link); assert false;
    case Fail(reason, canTransmit) => ShutdownSends(s, reason, canTransmit, link); assert false;
    case Submit(q, now) => SubmitEnables(s, q, now, link, k);
  }

  lemma SubmitEnables(s: Controller, q: Request, now: nat, link: Link, k: nat)
    requires Inv(s)
    requires |s.wire| <= k < |Submitted(s, q, now, link).0.wire| && Submitted(s, q, now, link).0.wire[k].command.Enable?
    ensures q.Start? && s.safety == NoSafety
    ensures var j := Submitted(s, q, now, link).0.wire[k].command.joint;
            && j < JOINTS && j in s.setup.active && j in s.masks.modeReady && j in s.masks.rangesReady && j in s.masks.feedbackReady
            && j !in s.masks.faulty && forall r | 0 <= r < 3 :: s.ranges[j].values[r] > 0.0
  {
    hide Shutdown, EnableFrom, ModesFollow;
    ShutdownSends(s, InvalidCommand, true, link);
    ShutdownSends(s, s.safety, s.safety != BusOff && s.safety != CanTransmit, link);
    EnableFromSends(s.(masks := s.masks.(enabled := {}, pending := {})), 0, now, link);
    var j := Submitted(s, q, now, link).0.wire[k].command.joint;
    assert j in s.setup.active;
    assert RangesOf(s.ranges[j], j in s.setup.active, s.progress.rangeIndex - 3 * j);
  }
}
