/** Where a confirmed mode of the seven-joint controller comes from. Item 2j of the mode setup asks
    joint j to take the position-velocity mode, item 2j + 1 to report its mode. A motor acknowledges
    the first and answers the second; the controller takes either reply for either item. Because a
    request is repeated after a timeout, a late acknowledgement can meet the read request. */
module StartupModeRuns {
  import opened Common
  import opened JointStartup
  import opened JointStartupRuns

  // ----- Replies and requests -----

  /** A reply from joint j's own motor about its mode register. */
  predicate ModeReply(e: Event, j: nat, kind: ReplyKind) {
    && e.pre.Sized() && j < JOINTS && e.op.Receive? && e.op.frame.Reply? && e.op.frame.kind == kind && e.op.frame.register == MODE_REGISTER
    && JointOf(e.pre.setup, e.op.frame.master, 0) == Some(j) && e.op.frame.motor == e.pre.setup.motors[j]
  }

  /** The request to read joint j's mode is sent and not yet taken as answered. */
  predicate ReadOutstanding(s: Controller, j: nat) {
    s.stage == ModeSetup && s.progress.waiting && s.progress.modeIndex == 2 * j + 1
  }

  /** The event that makes joint j count as mode-ready is a reply of this kind. */
  predicate Confirms(e: Event, j: nat, kind: ReplyKind) {
    ModeReply(e, j, kind) && j !in e.pre.masks.modeReady && j in e.post.masks.modeReady
  }

  function Replies(run: seq<Event>, j: nat, kind: ReplyKind): nat {
    if run == [] then 0 else Replies(run[..|run| - 1], j, kind) + if ModeReply(run[|run| - 1], j, kind) then 1 else 0
  }

  /** How often the transport took the request of a mode item. */
  function Sent(wire: seq<Attempt>, item: nat): nat {
    if wire == [] then 0
    else Sent(wire[..|wire| - 1], item) + if wire[|wire| - 1] == Attempt(ModeRequest(item), true) then 1 else 0
  }

  /** Joint j's motor has acknowledged no more writes, and answered no more reads, than it was sent. */
  predicate InReturn(run: seq<Event>, j: nat) {
    run != [] ==>
      var wire := run[|run| - 1].post.wire;
      Replies(run, j, Echo) <= Sent(wire, 2 * j) && Replies(run, j, Answer) <= Sent(wire, 2 * j + 1)
  }

  /** At all times every motor replies at most once to each request. */
  ghost predicate Lawful(run: seq<Event>) {
    forall i: nat, j: nat :: i <= |run| && j < JOINTS ==> InReturn(run[..i], j)
  }

  // ----- What each entry point keeps -----

  predicate SameModes(s: Controller, t: Controller) {
    t.setup == s.setup && t.masks.modeReady == s.masks.modeReady && t.progress.modeIndex == s.progress.modeIndex
  }

  lemma StartupAdvances(s: Controller, now: nat, link: Link)
    ensures var k := ServiceStartup(s, now, link).progress.modeIndex;
            k == s.progress.modeIndex || k == Skipped(s.setup.active, s.progress.modeIndex, 2, MODE_ITEMS)
  {
    var a := if s.stage == BootDelay then s.(stage := ModeSetup) else s;
    ModesAdvance(a, now, link);
    RangesKeepModes(a, now, link);
    hide ServiceModes, ServiceRanges, Skipped;
  }

  lemma ModesAdvance(s: Controller, now: nat, link: Link)
    ensures ServiceModes(s, now, link).progress.modeIndex == Skipped(s.setup.active, s.progress.modeIndex, 2, MODE_ITEMS)
  {
    hide Shutdown, Due, SendRequest, Skipped;
    var t := s.(progress := s.progress.(modeIndex := Skipped(s.setup.active, s.progress.modeIndex, 2, MODE_ITEMS)));
    ShutdownKeeps(t, ModeMismatch, true, link);
    DueKeeps(t, now, link);
    RequestKeeps(Due(t, now, link).0, ModeRequest(t.progress.modeIndex), now, link);
  }

  lemma RangesKeepModes(s: Controller, now: nat, link: Link)
    ensures ServiceRanges(s, now, link).progress.modeIndex == s.progress.modeIndex
  {
    hide Shutdown, Due, SendRequest, Skipped, DisableUntil;
    var t := s.(progress := s.progress.(rangeIndex := Skipped(s.setup.active, s.progress.rangeIndex, 3, RANGE_ITEMS)));
    ShutdownKeeps(t, StartupTimeout, true, link);
    DueKeeps(t, now, link);
    RequestKeeps(Due(t, now, link).0, RangeRequest(t.progress.rangeIndex), now, link);
    DisableUntilKeeps(t, t.setup.active - t.masks.feedbackReady, 0, link);
    ShutdownKeeps(DisableUntil(t, t.setup.active - t.masks.feedbackReady, 0, link).0, CanTransmit, true, link);
  }

  lemma PreparedAdvances(s: Controller, now: nat, link: Link)
    ensures var k := Prepared(s, now, link).progress.modeIndex;
            k == s.progress.modeIndex || k == Skipped(s.setup.active, s.progress.modeIndex, 2, MODE_ITEMS)
  {
    hide DisableAll, ServiceStartup, ServiceReady, Skipped;
    DisableAllKeeps(s.(masks := s.masks.(owed := {})), s.masks.owed, 0, link);
    var p := PayOwed(s, link);
    StartupAdvances(p, now, link);
    ReadyKeepsShape(ServiceStartup(p, now, link), now, link);
  }

  lemma MotionKeepsModes(s: Controller, now: nat, motion: Motion, link: Link)
    requires s.Sized()
    ensures SameModes(s, ServiceMotion(s, now, motion, link))
  {
    hide Shutdown, Setpoints, Silent;
    ShutdownKeeps(s, FeedbackTimeout, true, link);
    ShutdownKeeps(s, CommandTimeout, true, link);
    ShutdownKeeps(s, CanTransmit, true, link);
    if motion.Sampled? {
      var t := if motion.finished then s.(stage := Holding) else s;
      SetpointsKeep(t, 0, link);
      ShutdownKeeps(Setpoints(t, 0, link).0, CanTransmit, true, link);
    }
  }

  lemma StepKeepsModes(s: Controller, now: nat, motion: Motion, link: Link)
    requires s.Sized()
    ensures SameModes(Prepared(s, now, link), Stepped(s, now, motion, link)) && Stepped(s, now, motion, link).setup == s.setup
    ensures Stepped(s, now, motion, link).masks.modeReady == s.masks.modeReady
  {
    hide Shutdown, Setpoints, Silent, Prepared;
    PreparedKeepsShape(s, now, link);
    var t := Prepared(s, now, link);
    ShutdownKeeps(t, FeedbackTimeout, true, link);
    MotionKeepsModes(t, now, motion, link);
    MotionKeepsModes(t.(stage := Holding, masks := t.masks.(pending := {})), now, motion, link);
    hide ServiceMotion;
  }

  lemma {:induction false} EnableKeepsModes(s: Controller, j: nat, now: nat, link: Link)
    requires s.Sized() && j <= JOINTS
    ensures SameModes(s, EnableFrom(s, j, now, link).0)
    decreases JOINTS - j
  {
    hide Shutdown;
    if j < JOINTS && j !in s.setup.active {
      EnableKeepsModes(s, j + 1, now, link);
    } else if j < JOINTS {
      var t := Transmit(s, Enable(j), link).0;
      ShutdownKeeps(t, CanTransmit, true, link);
      EnableKeepsModes(t.(masks := t.masks.(pending := t.masks.pending + {j}), feedbackMs := t.feedbackMs[j := now]), j + 1, now, link);
    }
  }

  lemma SubmitKeepsModes(s: Controller, q: Request, now: nat, link: Link)
    requires s.Sized()
    ensures SameModes(s, Submitted(s, q, now, link).0)
    ensures Asks(s.wire, Submitted(s, q, now, link).0.wire, s.progress.modeIndex)
  {
    hide Shutdown, EnableFrom;
    ShutdownKeeps(s, InvalidCommand, true, link);
    ShutdownSends(s, InvalidCommand, true, link);
    ShutdownKeeps(s, s.safety, s.safety != BusOff && s.safety != CanTransmit, link);
    ShutdownSends(s, s.safety, s.safety != BusOff && s.safety != CanTransmit, link);
    EnableKeepsModes(s.(masks := s.masks.(enabled := {}, pending := {})), 0, now, link);
    EnableFromSends(s.(masks := s.masks.(enabled := {}, pending := {})), 0, now, link);
  }

  lemma FrameModes(s: Controller, f: Frame, now: nat, link: Link)
    requires Inv(s)
    ensures var t := OnFrame(s, f, now, link); var e := Event(Receive(f, now), s, t);
            && t.setup == s.setup && Quiet(s.wire, t.wire)
            && (SameModes(s, t) || (t.progress.modeIndex == s.progress.modeIndex + 1
                                    && f.Reply? && f.raw == CONTROL_MODE && s.stage == ModeSetup && s.progress.waiting
                                    && ModeReply(e, s.progress.modeIndex / 2, f.kind)
                                    && t.masks.modeReady == if s.progress.modeIndex % 2 == 1 then s.masks.modeReady + {s.progress.modeIndex / 2} else s.masks.modeReady))
  {
    FrameSends(s, f, now, link);
    hide Shutdown, Quiet, RangesFollow, ModesFollow;
    ShutdownKeeps(s, ModeMismatch, true, link);
    ShutdownKeeps(s, InvalidCommand, true, link);
  }

  /** Joint j's write item has been passed. */
  predicate PastWrite(s: Controller, j: nat) {
    s.progress.modeIndex == 2 * j + 1 || (j in s.setup.active && s.progress.modeIndex > 2 * j)
  }

  lemma StepAdvances(s: Controller, now: nat, motion: Motion, link: Link, j: nat)
    requires Inv(s) && j < JOINTS
    ensures var t := Stepped(s, now, motion, link);
            && t.setup == s.setup && s.progress.modeIndex <= t.progress.modeIndex && Asks(s.wire, t.wire, t.progress.modeIndex)
            && (s.progress.modeIndex <= 2 * j ==> !PastWrite(t, j))
  {
    hide Stepped, Prepared, RangesFollow, Asks;
    StepKeepsModes(s, now, motion, link);
    PreparedAdvances(s, now, link);
    StepSends(s, now, motion, link);
    SkippedRules(s.setup.active, s.progress.modeIndex, 2, MODE_ITEMS);
    hide Skipped;
  }

  /** One event: the index only advances, mode requests name the item it stands at, and joint j's
      write item is passed only on a mode reply of joint j's motor. */
  lemma EventAdvances(e: Event, link: Link, j: nat)
    requires Inv(e.pre) && e.post == Do(e.pre, e.op, link) && j < JOINTS
    ensures e.post.setup == e.pre.setup && e.pre.progress.modeIndex <= e.post.progress.modeIndex
    ensures Asks(e.pre.wire, e.post.wire, e.post.progress.modeIndex)
    ensures e.pre.progress.modeIndex <= 2 * j && PastWrite(e.post, j) ==> e.op.Receive? && e.op.frame.Reply? && ModeReply(e, j, e.op.frame.kind)
  {
    hide Stepped, OnFrame, Submitted, Shutdown, RangesFollow, ModesFollow;
    var s := e.pre;
    match e.op
    case Step(now, motion) => StepAdvances(s, now, motion, link, j);
    case Submit(q, now) => SubmitKeepsModes(s, q, now, link);
    case Fail(reason, canTransmit) =>
      ShutdownKeeps(s, reason, canTransmit, link);
      ShutdownSends(s, reason, canTransmit, link);
      assert Asks(s.wire, e.post.wire, e.post.progress.modeIndex);
    case Receive(f, now) =>
      FrameModes(s, f, now, link);
      assert Asks(s.wire, e.post.wire, e.post.progress.modeIndex);
  }

  // ----- Any run -----

  lemma ModeSource(e: Event, link: Link, j: nat) returns (kind: ReplyKind)
    requires Inv(e.pre) && e.post == Do(e.pre, e.op, link) && j in e.post.masks.modeReady && j !in e.pre.masks.modeReady
    ensures Confirms(e, j, kind) && ReadOutstanding(e.pre, j) && e.op.frame.raw == CONTROL_MODE
  {
    hide Stepped, OnFrame, Submitted, Shutdown, RangesFollow, Quiet;
    kind := Echo;
    match e.op
    case Step(now, motion) => StepKeepsModes(e.pre, now, motion, link); assert false;
    case Submit(q, now) => SubmitKeepsModes(e.pre, q, now, link); assert false;
    case Fail(reason, canTransmit) => ShutdownKeeps(e.pre, reason, canTransmit, link); assert false;
    case Receive(f, now) =>
      FrameModes(e.pre, f, now, link);
      kind := f.kind;
  }

  /** What makes a joint mode-ready is a mode reply of its own motor, of either kind, that came while
      its read request was outstanding and carried the position-velocity mode. */
  lemma {:induction false} ModeWasReplied(run: seq<Event>, setup: Setup, accepted: bool, start: nat, link: Link, j: nat)
    returns (i: nat, kind: ReplyKind)
    requires IsRun(run, setup, accepted, start, link) && j in Final(run, setup, accepted, start).masks.modeReady
    ensures i < |run| && Confirms(run[i], j, kind) && ReadOutstanding(run[i].pre, j) && run[i].op.frame.raw == CONTROL_MODE
  {
    assert run != [];
    var last, before := run[|run| - 1], run[..|run| - 1];
    assert last.pre == Final(before, setup, accepted, start);
    RunKeepsInv(before, setup, accepted, start, link);
    hide Do, Inv, Confirms, ReadOutstanding;
    if j in last.pre.masks.modeReady {
      i, kind := ModeWasReplied(before, setup, accepted, start, link, j);
    } else {
      kind := ModeSource(last, link, j);
      i := |run| - 1;
    }
  }

  lemma {:induction false} SentSame(before: seq<Attempt>, after: seq<Attempt>, index: nat, item: nat)
    requires Asks(before, after, index)
    ensures Sent(before, item) <= Sent(after, item)
    ensures item != index ==> Sent(before, item) == Sent(after, item)
    decreases |after|
  {
    if |after| > |before| {
      SentSame(before, after[..|after| - 1], index, item);
    } else {
      assert before == after;
    }
  }

  /** A mode item is asked only once the index stands at it. */
  lemma {:induction false} AskedInOrder(run: seq<Event>, setup: Setup, accepted: bool, start: nat, link: Link, item: nat)
    requires IsRun(run, setup, accepted, start, link)
    ensures var s := Final(run, setup, accepted, start); s.setup == setup && (Sent(s.wire, item) > 0 ==> s.progress.modeIndex >= item)
  {
    hide Do, Inv, Asks;
    if run != [] {
      var last, before := run[|run| - 1], run[..|run| - 1];
      assert last.pre == Final(before, setup, accepted, start);
      AskedInOrder(before, setup, accepted, start, link, item);
      RunKeepsInv(before, setup, accepted, start, link);
      EventAdvances(last, link, 0);
      SentSame(last.pre.wire, last.post.wire, last.post.progress.modeIndex, item);
    }
  }

  /** Once joint j's write item is passed it is never sent again. */
  lemma {:induction false} WriteIsOver(run: seq<Event>, setup: Setup, accepted: bool, start: nat, link: Link, i: nat, j: nat)
    requires IsRun(run, setup, accepted, start, link) && i <= |run| && Final(run[..i], setup, accepted, start).progress.modeIndex > 2 * j
    ensures Final(run, setup, accepted, start).progress.modeIndex > 2 * j
    ensures Sent(Final(run, setup, accepted, start).wire, 2 * j) == Sent(Final(run[..i], setup, accepted, start).wire, 2 * j)
    decreases |run|
  {
    hide Do, Inv, Asks;
    if i == |run| {
      assert run[..i] == run;
    } else {
      var last, before := run[|run| - 1], run[..|run| - 1];
      assert before[..i] == run[..i];
      assert last.pre == Final(before, setup, accepted, start);
      WriteIsOver(before, setup, accepted, start, link, i, j);
      RunKeepsInv(before, setup, accepted, start, link);
      EventAdvances(last, link, 0);
      SentSame(last.pre.wire, last.post.wire, last.post.progress.modeIndex, 2 * j);
    }
  }

  // ----- Runs in which every request is replied to at most once -----

  lemma LawfulPrefix(run: seq<Event>, i: nat)
    requires Lawful(run) && i <= |run|
    ensures Lawful(run[..i]) && forall j: nat :: j < JOINTS ==> InReturn(run[..i], j)
  {
    forall k: nat, j: nat | k <= i && j < JOINTS ensures InReturn(run[..i][..k], j) {
      assert run[..i][..k] == run[..k];
    }
  }

  lemma LawfulMore(run: seq<Event>, e: Event)
    requires Lawful(run) && forall j: nat :: j < JOINTS ==> InReturn(run + [e], j)
    ensures Lawful(run + [e])
  {
    var next := run + [e];
    forall i: nat, j: nat | i <= |next| && j < JOINTS ensures InReturn(next[..i], j) {
      assert next[..i] == if i <= |run| then run[..i] else next;
    }
  }

  lemma PrefixIsRun(run: seq<Event>, setup: Setup, accepted: bool, start: nat, link: Link, i: nat)
    requires IsRun(run, setup, accepted, start, link) && i <= |run|
    ensures IsRun(run[..i], setup, accepted, start, link)
    ensures i < |run| ==> run[i].pre == Final(run[..i], setup, accepted, start)
  {
  }

  lemma {:induction false} RepliesGrow(run: seq<Event>, i: nat, j: nat, kind: ReplyKind)
    requires i <= |run|
    ensures Replies(run[..i], j, kind) <= Replies(run, j, kind)
    decreases |run|
  {
    if i == |run| {
      assert run[..i] == run;
    } else {
      assert run[..|run| - 1][..i] == run[..i];
      RepliesGrow(run[..|run| - 1], i, j, kind);
    }
  }

  /** One more event adds its reply to the count it belongs to. */
  lemma RepliesMore(run: seq<Event>, e: Event, j: nat, kind: ReplyKind)
    ensures Replies(run + [e], j, kind) == Replies(run, j, kind) + if ModeReply(e, j, kind) then 1 else 0
  {
    assert (run + [e])[..|run|] == run;
  }

  /** Every passed write item was acknowledged: no read had been sent that could be answered. */
  lemma {:induction false} WriteWasEchoed(run: seq<Event>, setup: Setup, accepted: bool, start: nat, link: Link, j: nat)
    requires IsRun(run, setup, accepted, start, link) && Lawful(run) && j < JOINTS && PastWrite(Final(run, setup, accepted, start), j)
    ensures Replies(run, j, Echo) >= 1 && JointOf(setup, setup.masters[j], 0) == Some(j)
  {
    hide Do, Inv, Asks, ModeReply;
    assert run != [];
    var last, before := run[|run| - 1], run[..|run| - 1];
    assert last.pre == Final(before, setup, accepted, start);
    AskedInOrder(before, setup, accepted, start, link, 2 * j + 1);
    RunKeepsInv(before, setup, accepted, start, link);
    EventAdvances(last, link, j);
    LawfulPrefix(run, |run| - 1);
    if last.pre.progress.modeIndex > 2 * j {
      assert PastWrite(last.pre, j);
      WriteWasEchoed(before, setup, accepted, start, link, j);
    } else {
      LawfulPrefix(run, |run|);
      assert run[..|run|] == run;
      FirstReplyIsEcho(run, link, j);
      OwnMaster(last, j);
    }
  }

  lemma OwnMaster(e: Event, j: nat)
    requires e.op.Receive? && e.op.frame.Reply? && ModeReply(e, j, e.op.frame.kind)
    ensures JointOf(e.pre.setup, e.pre.setup.masters[j], 0) == Some(j)
  {
  }

  lemma FirstReplyIsEcho(run: seq<Event>, link: Link, j: nat)
    requires run != [] && j < JOINTS && InReturn(run, j)
    requires var e := run[|run| - 1];
             && e.pre.Sized() && e.post == Do(e.pre, e.op, link) && e.op.Receive? && e.op.frame.Reply?
             && ModeReply(e, j, e.op.frame.kind) && Sent(e.pre.wire, 2 * j + 1) == 0
    ensures Replies(run, j, Echo) >= 1
  {
    hide OnFrame, ModeReply;
    var e := run[|run| - 1];
    FrameSends(e.pre, e.op.frame, e.op.now, link);
    assert Asks(e.pre.wire, e.post.wire, 2 * j);
    SentSame(e.pre.wire, e.post.wire, 2 * j, 2 * j + 1);
    assert e.op.frame.kind == Answer ==> Replies(run, j, Answer) >= 1;
  }

  /** An acknowledgement that confirms joint j is one of a write sent before, and still to come when
      the read request went out. */
  lemma EchoWasOwed(run: seq<Event>, setup: Setup, accepted: bool, start: nat, link: Link, i: nat, k: nat, j: nat)
    requires IsRun(run, setup, accepted, start, link) && Lawful(run) && i <= k < |run| && j < JOINTS && ModeReply(run[k], j, Echo)
    requires Final(run[..i], setup, accepted, start).progress.modeIndex > 2 * j
    ensures Replies(run[..i], j, Echo) < Sent(Final(run[..i], setup, accepted, start).wire, 2 * j)
  {
    hide Do, ModeReply;
    var upto := run[..k + 1];
    assert upto == run[..k] + [run[k]];
    RepliesMore(run[..k], run[k], j, Echo);
    assert upto[..k][..i] == run[..i] && upto[..i] == run[..i] && upto[..k] == run[..k];
    RepliesGrow(run[..k], i, j, Echo);
    LawfulPrefix(run, k + 1);
    PrefixIsRun(run, setup, accepted, start, link, k + 1);
    WriteIsOver(upto, setup, accepted, start, link, i, j);
    assert InReturn(upto, j);
  }

  /** If joint j was sent its write request only once, it became mode-ready by an answer to the read. */
  lemma SingleWriteIsAnswered(run: seq<Event>, setup: Setup, accepted: bool, start: nat, link: Link, j: nat) returns (i: nat)
    requires IsRun(run, setup, accepted, start, link) && Lawful(run) && j < JOINTS
    requires j in Final(run, setup, accepted, start).masks.modeReady && Sent(Final(run, setup, accepted, start).wire, 2 * j) <= 1
    ensures i < |run| && Confirms(run[i], j, Answer) && ReadOutstanding(run[i].pre, j)
  {
    var kind;
    i, kind := ModeWasReplied(run, setup, accepted, start, link, j);
    hide Do;
    PrefixIsRun(run, setup, accepted, start, link, i);
    WriteIsOver(run, setup, accepted, start, link, i, j);
    LawfulPrefix(run, i);
    WriteWasEchoed(run[..i], setup, accepted, start, link, j);
    if kind == Echo { EchoWasOwed(run, setup, accepted, start, link, i, i, j); }
  }

  /** Some lawful continuation of the run confirms joint j by an acknowledgement. */
  ghost predicate EchoCanConfirm(run: seq<Event>, setup: Setup, accepted: bool, start: nat, link: Link, j: nat) {
    exists more: seq<Event>, k: nat ::
      IsRun(run + more, setup, accepted, start, link) && Lawful(run + more) && k < |more| && Confirms(more[k], j, Echo)
  }

  /** While joint j's read request is outstanding an acknowledgement can still pass for its answer
      exactly when one of its write requests has not been acknowledged yet. */
  lemma EchoConfirmsIff(run: seq<Event>, setup: Setup, accepted: bool, start: nat, link: Link, j: nat)
    requires IsRun(run, setup, accepted, start, link) && Lawful(run) && j < JOINTS && ReadOutstanding(Final(run, setup, accepted, start), j)
    ensures EchoCanConfirm(run, setup, accepted, start, link, j)
            <==> Replies(run, j, Echo) < Sent(Final(run, setup, accepted, start).wire, 2 * j)
  {
    var s := Final(run, setup, accepted, start);
    if EchoCanConfirm(run, setup, accepted, start, link, j) {
      var more: seq<Event>, k: nat :| IsRun(run + more, setup, accepted, start, link) && Lawful(run + more) && k < |more| && Confirms(more[k], j, Echo);
      assert (run + more)[..|run|] == run && (run + more)[|run| + k] == more[k];
      hide Do;
      EchoWasOwed(run + more, setup, accepted, start, link, |run|, |run| + k, j);
    }
    if Replies(run, j, Echo) < Sent(s.wire, 2 * j) { EchoConfirms(run, setup, accepted, start, link, j); }
  }

  lemma EchoConfirms(run: seq<Event>, setup: Setup, accepted: bool, start: nat, link: Link, j: nat)
    requires IsRun(run, setup, accepted, start, link) && Lawful(run) && j < JOINTS && ReadOutstanding(Final(run, setup, accepted, start), j)
    requires Replies(run, j, Echo) < Sent(Final(run, setup, accepted, start).wire, 2 * j)
    ensures EchoCanConfirm(run, setup, accepted, start, link, j)
  {
    hide Do;
    var s := Final(run, setup, accepted, start);
    RunKeepsInv(run, setup, accepted, start, link);
    AskedInOrder(run, setup, accepted, start, link, 0);
    WriteWasEchoed(run, setup, accepted, start, link, j);
    var e := EchoEvent(s, j, link);
    EchoEventConfirms(s, j, link);
    var more := [e];
    assert (run + more)[..|run|] == run;
    assert IsRun(run + more, setup, accepted, start, link);
    EchoKeepsLawful(run, e, j);
    assert Confirms(more[0], j, Echo);
  }

  function EchoEvent(s: Controller, j: nat, link: Link): Event
    requires s.Sized() && j < JOINTS
  {
    var f := Reply(Echo, s.setup.masters[j], s.setup.motors[j], MODE_REGISTER, CONTROL_MODE, NotFinite);
    Event(Receive(f, 0), s, Do(s, Receive(f, 0), link))
  }

  lemma EchoEventConfirms(s: Controller, j: nat, link: Link)
    requires Inv(s) && j < JOINTS && ReadOutstanding(s, j) && JointOf(s.setup, s.setup.masters[j], 0) == Some(j)
    ensures Confirms(EchoEvent(s, j, link), j, Echo) && EchoEvent(s, j, link).post.wire == s.wire
  {
  }

  lemma EchoInReturn(run: seq<Event>, e: Event, j: nat, i: nat)
    requires run != [] && run[|run| - 1].post == e.pre && i < JOINTS && InReturn(run, i)
    requires ModeReply(e, j, Echo) && e.post.wire == e.pre.wire && Replies(run, j, Echo) < Sent(e.pre.wire, 2 * j)
    ensures InReturn(run + [e], i)
  {
    hide Replies, Sent;
    RepliesMore(run, e, i, Echo);
    RepliesMore(run, e, i, Answer);
  }

  lemma EchoKeepsLawful(run: seq<Event>, e: Event, j: nat)
    requires Lawful(run) && j < JOINTS && ModeReply(e, j, Echo) && e.post.wire == e.pre.wire
    requires run != [] && run[|run| - 1].post == e.pre && Replies(run, j, Echo) < Sent(e.pre.wire, 2 * j)
    ensures Lawful(run + [e])
  {
    hide Lawful, InReturn, ModeReply, Replies, Sent;
    LawfulPrefix(run, |run|);
    assert run[..|run|] == run;
    forall i: nat | i < JOINTS ensures InReturn(run + [e], i) {
      EchoInReturn(run, e, j, i);
    }
    LawfulMore(run, e);
  }

  // ----- A run in which nothing was read -----

  const ONE_JOINT := Setup({0}, [17, 18, 19, 20, 21, 22, 23], [1, 2, 3, 4, 5, 6, 7], false)

  function Takes(): Link {
    (n: nat) => true
  }

  lemma {:induction false} NothingOwed(s: Controller, j: nat, link: Link)
    requires j <= JOINTS
    ensures DisableAll(s, {}, j, link) == s
    decreases JOINTS - j
  {
    if j < JOINTS { NothingOwed(s, j + 1, link); }
  }

  /** A step that sends the current request of joint 0, for the first time or again. */
  lemma RequestStep(s: Controller, now: nat)
    requires s.setup == ONE_JOINT && s.Sized() && s.masks == NO_MASKS && s.safety == NoSafety && s.progress.modeIndex < 2
    requires s.stage == ModeSetup || (s.stage == BootDelay && Elapsed32(now, s.initMs) >= BOOT_DELAY_MS)
    requires s.progress.waiting ==> Elapsed32(now, s.progress.requestMs) >= STARTUP_TIMEOUT_MS && s.progress.retries < RETRY_LIMIT
    ensures var p := s.progress;
            Stepped(s, now, Sampled(false), Takes())
            == s.(stage := ModeSetup, wire := s.wire + [Attempt(ModeRequest(p.modeIndex), true)],
                  progress := p.(waiting := true, requestMs := now, retries := if p.waiting then p.retries + 1 else p.retries))
  {
    hide Shutdown, DisableAll, ServiceModes, DisableUntil, Setpoints, Silent, ServiceRanges;
    NothingOwed(s, 0, Takes());
    assert PayOwed(s, Takes()) == s;
    RequestSent(s.(stage := ModeSetup), now);
  }

  lemma RequestSent(s: Controller, now: nat)
    requires s.setup == ONE_JOINT && s.progress.modeIndex < 2
    requires s.progress.waiting ==> Elapsed32(now, s.progress.requestMs) >= STARTUP_TIMEOUT_MS && s.progress.retries < RETRY_LIMIT
    ensures var p := s.progress;
            ServiceModes(s, now, Takes())
            == s.(wire := s.wire + [Attempt(ModeRequest(p.modeIndex), true)],
                  progress := p.(waiting := true, requestMs := now, retries := if p.waiting then p.retries + 1 else p.retries))
  {
    hide Shutdown, Due, SendRequest;
    assert s.progress.modeIndex / 2 == 0 && Skipped(s.setup.active, s.progress.modeIndex, 2, MODE_ITEMS) == s.progress.modeIndex;
    RequestDue(s, now);
    RequestTaken(Due(s, now, Takes()).0, now);
  }

  lemma RequestDue(s: Controller, now: nat)
    requires s.progress.waiting ==> Elapsed32(now, s.progress.requestMs) >= STARTUP_TIMEOUT_MS && s.progress.retries < RETRY_LIMIT
    ensures var p := s.progress;
            Due(s, now, Takes()) == (s.(progress := p.(waiting := false, retries := if p.waiting then p.retries + 1 else p.retries)), true)
  {
    hide Shutdown;
  }

  lemma RequestTaken(s: Controller, now: nat)
    ensures var c := ModeRequest(s.progress.modeIndex);
            SendRequest(s, c, now, Takes())
            == s.(wire := s.wire + [Attempt(c, true)], progress := s.progress.(waiting := true, requestMs := now))
  {
    hide Shutdown;
  }

  /** Joint 0's motor acknowledges with the mode it was told to take. */
  lemma EchoStep(s: Controller)
    requires s.setup == ONE_JOINT && s.Sized() && s.masks.modeReady == {} && s.progress.modeIndex < 2 && s.progress.waiting && s.stage == ModeSetup
    ensures var e := EchoEvent(s, 0, Takes()); var p := s.progress;
            && ModeReply(e, 0, Echo)
            && e.post == s.(masks := if p.modeIndex == 1 then s.masks.(modeReady := {0}) else s.masks,
                            progress := p.(modeIndex := p.modeIndex + 1, waiting := false, retries := 0))
  {
  }

  /** A lawful run with this many acknowledgements of joint 0, no other replies, and this many writes. */
  ghost predicate Tally(run: seq<Event>, echoes: nat, writes: nat) {
    && run != [] && Lawful(run) && Sent(run[|run| - 1].post.wire, 0) == writes
    && forall j: nat :: Replies(run, j, Answer) == 0 && Replies(run, j, Echo) == if j == 0 then echoes else 0
  }

  lemma TallyStep(run: seq<Event>, e: Event, echoes: nat, writes: nat, item: nat)
    requires run == [] || (Tally(run, echoes, writes) && run[|run| - 1].post == e.pre)
    requires run == [] ==> echoes == writes == 0 && e.pre.wire == []
    requires echoes <= writes && e.op.Step? && e.post.wire == e.pre.wire + [Attempt(ModeRequest(item), true)]
    ensures Tally(run + [e], echoes, if item == 0 then writes + 1 else writes)
  {
    var next := run + [e];
    assert next[..|run|] == run && next[|run|] == e;
    assert e.post.wire[..|e.post.wire| - 1] == e.pre.wire;
    assert forall j: nat, kind :: Replies(next, j, kind) == Replies(run, j, kind);
    assert forall j: nat :: j < JOINTS ==> InReturn(next, j);
    if run == [] { assert Lawful(run); }
    LawfulMore(run, e);
  }

  lemma TallyEcho(run: seq<Event>, e: Event, echoes: nat, writes: nat)
    requires Tally(run, echoes, writes) && run[|run| - 1].post == e.pre
    requires echoes < writes && ModeReply(e, 0, Echo) && e.post.wire == e.pre.wire
    ensures Tally(run + [e], echoes + 1, writes)
  {
    EchoKeepsLawful(run, e, 0);
    var next := run + [e];
    assert next[..|run|] == run && next[|run|] == e;
    forall j: nat ensures Replies(next, j, Answer) == 0 && Replies(next, j, Echo) == if j == 0 then echoes + 1 else 0 {
      assert ModeReply(e, j, Echo) <==> j == 0;
    }
  }

  /** A run of joint 0 alone that stands in mode setup with this progress. */
  ghost predicate At(run: seq<Event>, echoes: nat, writes: nat, p: Progress, ready: set<nat>) {
    && run != [] && IsRun(run, ONE_JOINT, true, 0, Takes()) && Tally(run, echoes, writes)
    && var s := run[|run| - 1].post;
       s.setup == ONE_JOINT && s.Sized() && s.masks == NO_MASKS.(modeReady := ready) && s.safety == NoSafety && s.stage == ModeSetup && s.progress == p
  }

  lemma Begins() returns (run: seq<Event>)
    ensures At(run, 0, 1, Progress(0, 0, true, 0, 0, 2000), {})
  {
    hide Stepped, Tally;
    var s := Initial(ONE_JOINT, true, 0);
    var e := Event(Step(2000, Sampled(false)), s, Do(s, Step(2000, Sampled(false)), Takes()));
    RequestStep(s, 2000);
    TallyStep([], e, 0, 0, 0);
    run := [] + [e];
  }

  lemma Requests(run: seq<Event>, echoes: nat, writes: nat, p: Progress, now: nat) returns (next: seq<Event>)
    requires At(run, echoes, writes, p, {}) && echoes <= writes && p.modeIndex < 2
    requires p.waiting ==> Elapsed32(now, p.requestMs) >= STARTUP_TIMEOUT_MS && p.retries < RETRY_LIMIT
    ensures At(next, echoes, if p.modeIndex == 0 then writes + 1 else writes,
               p.(waiting := true, requestMs := now, retries := if p.waiting then p.retries + 1 else p.retries), {})
  {
    hide Stepped, Tally;
    var s := run[|run| - 1].post;
    var e := Event(Step(now, Sampled(false)), s, Do(s, Step(now, Sampled(false)), Takes()));
    RequestStep(s, now);
    TallyStep(run, e, echoes, writes, p.modeIndex);
    next := run + [e];
    hide Do;
  }

  lemma Acknowledges(run: seq<Event>, echoes: nat, writes: nat, p: Progress) returns (next: seq<Event>)
    requires At(run, echoes, writes, p, {}) && echoes < writes && p.modeIndex < 2 && p.waiting
    ensures At(next, echoes + 1, writes, p.(modeIndex := p.modeIndex + 1, waiting := false, retries := 0), if p.modeIndex == 1 then {0} else {})
  {
    hide OnFrame, Tally;
    var s := run[|run| - 1].post;
    var e := EchoEvent(s, 0, Takes());
    EchoStep(s);
    TallyEcho(run, e, echoes, writes);
    next := run + [e];
    hide Do;
  }

  /** The write request is sent, and sent again after the timeout; its first acknowledgement moves on
      to the read request, and its second one is taken for the answer to that. No motor ever reported
      its mode, and yet the joint counts as mode-ready. */
  lemma EchoesAloneConfirm() returns (run: seq<Event>)
    ensures IsRun(run, ONE_JOINT, true, 0, Takes()) && Lawful(run)
    ensures 0 in Final(run, ONE_JOINT, true, 0).masks.modeReady && forall j: nat :: Replies(run, j, Answer) == 0
  {
    hide At;
    run := Begins();
    run := Requests(run, 0, 1, Progress(0, 0, true, 0, 0, 2000), 2100);
    run := Acknowledges(run, 0, 2, Progress(0, 0, true, 1, 0, 2100));
    run := Requests(run, 1, 2, Progress(1, 0, false, 0, 0, 2100), 2101);
    run := Acknowledges(run, 1, 2, Progress(1, 0, true, 0, 0, 2101));
    AtConfirms(run, Progress(2, 0, false, 0, 0, 2101));
  }

  lemma AtConfirms(run: seq<Event>, p: Progress)
    requires At(run, 2, 2, p, {0})
    ensures IsRun(run, ONE_JOINT, true, 0, Takes()) && Lawful(run)
    ensures 0 in Final(run, ONE_JOINT, true, 0).masks.modeReady && forall j: nat :: Replies(run, j, Answer) == 0
  {
    hide Do;
  }
}
