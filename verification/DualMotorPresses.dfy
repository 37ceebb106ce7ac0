/** History of the two-motor controller: every accepted move has its own debounced press, and a
    hold is entered only on three consecutive in-tolerance reports from each motor. */
module DualMotorPresses {
  import opened Common
  import opened DualMotor
  import opened DualMotorRuns

  // ----- Presses -----

  /** A move was accepted: both ENABLE frames went out. */
  predicate Accepts(e: Event) {
    e.pre.stage != Stage.Enabling && e.post.stage == Stage.Enabling
  }

  /** The stable key was released while the controller could take a move. */
  predicate Released(e: Event) {
    e.op.Step? && (e.pre.stage == Ready || e.pre.stage == Holding) && !e.post.key.stable
  }

  predicate PressEdge(e: Event) {
    && e.op.Step? && e.op.pressed && e.pre.key.candidate && !e.pre.key.stable && e.post.key.stable
    && Elapsed32(e.op.now, e.pre.key.sinceMs) >= DEBOUNCE_MS
  }

  lemma AcceptKeeps(s: Controller, now: nat, link: Link)
    ensures var t := AcceptMove(s, now, link);
            t.key == s.key && (t.stage == Stage.Enabling || t.stage == Fault || t.stage == s.stage)
            && (s.stage != Stage.Enabling && s.stage != Fault ==>
                  t.move.count == if t.stage == Stage.Enabling then (s.move.count + 1) % U32_RANGE else s.move.count)
  {
    hide SendBoth, Fits, Aimed, Stopped;
    if Chosen(s).Some? {
      var t := Aiming(s, Chosen(s).value, now);
      SendBothIsPeripheral(t, Enable(0), Enable(1), link);
      if !SendBoth(t, Enable(0), Enable(1), link).1 { RejectedFaults(t, Enable(0), Enable(1), link); }
    }
  }

  /** What one service call may do to the key and the move counter. */
  predicate KeyRule(s: Controller, t: Controller, edge: bool) {
    && t.key.stable == s.key.stable && t.key.candidate == s.key.candidate && t.key.sinceMs == s.key.sinceMs
    && (t.key.armed && !s.key.armed ==> (s.stage == Ready || s.stage == Holding) && !s.key.stable)
    && if s.stage != Stage.Enabling && t.stage == Stage.Enabling then
         && (s.stage == Ready || s.stage == Holding) && edge && (s.key.armed || !s.key.stable) && !t.key.armed
         && t.move.count == (s.move.count + 1) % U32_RANGE
       else t.move.count == s.move.count
  }

  lemma PeripheralKey(s: Controller, t: Controller, edge: bool)
    requires Peripheral(s, t)
    ensures KeyRule(s, t, edge)
  {
  }

  lemma ConsumeKey(s: Controller, now: nat, edge: bool, link: Link)
    requires (s.stage == Ready || s.stage == Holding) && edge && Armed(s).key.armed
    ensures KeyRule(s, Consume(Armed(s), now, link), edge)
  {
    var t := Armed(s);
    AcceptKeeps(t.(key := t.key.(armed := false)), now, link);
    hide AcceptMove;
  }

  lemma SendKey(s: Controller, t: Controller, a: Command, b: Command, edge: bool, link: Link)
    requires t == s || ((s.stage == Ready || s.stage == Holding) && t == Armed(s))
             || (s.stage == Stage.Enabling && exists now :: t == s.(stage := Moving, move := s.move.(startMs := now)))
    ensures KeyRule(s, SendBoth(t, a, b, link).0, edge)
  {
    SendBothIsPeripheral(t, a, b, link);
    hide SendBoth;
  }

  lemma LatchKey(s: Controller, reason: FaultReason, edge: bool)
    ensures KeyRule(s, Latched(s, reason, true), edge)
  {
    LatchedIsPeripheral(s, reason, true);
    PeripheralKey(s, Latched(s, reason, true), edge);
  }

  lemma MotionKey(s: Controller, now: nat, edge: bool, link: Link)
    requires Tracks(s.stage)
    ensures KeyRule(s, InMotion(s, now, edge, link), edge)
  {
    hide KeyRule, SendBoth, AcceptMove, Latched, Recent;
    var t := if s.stage == Holding then Armed(s) else s;
    LatchKey(s, FeedbackTimeout, edge);
    LatchKey(s, MovementTimeout, edge);
    SendKey(s, t, Target(0, t.motors[0].target), Target(1, t.motors[1].target), edge, link);
    if t.stage == Holding && Triggers(t, edge) { ConsumeKey(s, now, edge, link); }
  }

  lemma ReadyKey(s: Controller, now: nat, edge: bool, link: Link)
    requires s.stage == Ready
    ensures KeyRule(s, InReady(s, now, edge, link), edge)
  {
    hide KeyRule, SendBoth, AcceptMove, Latched, Recent;
    LatchKey(s, FeedbackTimeout, edge);
    SendKey(s, Armed(s), Disable(0), Disable(1), edge, link);
    if Triggers(Armed(s), edge) { ConsumeKey(s, now, edge, link); }
  }

  lemma EnablingKey(s: Controller, now: nat, edge: bool, link: Link)
    requires s.stage == Stage.Enabling
    ensures KeyRule(s, InEnabling(s, now, link), edge)
  {
    hide SendBoth, Latched;
    LatchKey(s, FeedbackTimeout, edge);
    var t := s.(stage := Moving, move := s.move.(startMs := now));
    SendKey(s, t, Target(0, t.motors[0].target), Target(1, t.motors[1].target), edge, link);
  }

  lemma ServiceAndKey(s: Controller, now: nat, edge: bool, link: Link)
    ensures KeyRule(s, Serviced(s, now, edge, link), edge)
  {
    hide InReady, InEnabling, InMotion, Stopped;
    match s.stage
    case Fault => case BootDelay => case Configuring => case RequestingFeedback =>
    case Ready => ReadyKey(s, now, edge, link);
    case Enabling => EnablingKey(s, now, edge, link);
    case Moving => MotionKey(s, now, edge, link);
    case Holding => MotionKey(s, now, edge, link);
  }

  /** An accepted move consumes, in one service call, an armed press edge debounced for at least
      twenty milliseconds; the move counter changes exactly there. */
  lemma AcceptConsumesEdge(e: Event, link: Link)
    requires e.post == Exec(e.pre, e.op, link)
    ensures Accepts(e) ==> PressEdge(e) && e.pre.key.armed && !e.post.key.armed && (e.pre.stage == Ready || e.pre.stage == Holding)
    ensures e.post.key.armed && !e.pre.key.armed ==> Released(e)
    ensures Accepts(e) ==> e.post.move.count == (e.pre.move.count + 1) % U32_RANGE
    ensures !Accepts(e) ==> e.post.move.count == e.pre.move.count
  {
    hide Serviced, PendingDisable, Measured, Arriving, Stopped, WithRange;
    if e.op.Step? {
      var (key, edge) := KeySample(e.pre.key, e.op.now, e.op.pressed);
      var s := e.pre.(key := key);
      PendingIsPeripheral(s, link);
      ServiceAndKey(PendingDisable(s, link), e.op.now, edge, link);
    }
  }

  /** An armed key remembers a stable release after the last accepted move. */
  lemma {:induction false} ArmedMeansReleased(run: seq<Event>, link: Link, s: Controller) returns (r: nat)
    requires Reached(run, link, s) && s.key.armed
    ensures r < |run| && Released(run[r])
    ensures forall i | r <= i < |run| :: !Accepts(run[i])
  {
    hide Exec, Accepts, Released, PressEdge;
    assert run != [];
    var last := run[|run| - 1];
    Prefix(run, link);
    AcceptConsumesEdge(last, link);
    if last.pre.key.armed {
      r := ArmedMeansReleased(run[..|run| - 1], link, last.pre);
    } else {
      r := |run| - 1;
    }
  }

  /** Between any two accepted moves the key was stably released while READY or HOLDING, and each
      of them is a debounced press edge of its own. */
  lemma MovesNeedReleases(run: seq<Event>, link: Link, i: nat, j: nat) returns (r: nat)
    requires IsRun(run, link) && i < j < |run| && Accepts(run[i]) && Accepts(run[j])
    ensures PressEdge(run[i]) && PressEdge(run[j])
    ensures i < r < j && Released(run[r])
  {
    AcceptConsumesEdge(run[i], link);
    AcceptConsumesEdge(run[j], link);
    PreReached(run, link, j);
    r := ArmedMeansReleased(run[..j], link, run[j].pre);
    assert run[..j][i] == run[i];
  }

  // ----- Debounce history -----

  /** Since the candidate sample was first seen, every sample has been the same. */
  ghost predicate HeldSince(run: seq<Event>, c: nat, candidate: bool, sinceMs: nat) {
    && c < |run| && run[c].op.Step? && run[c].op.now == sinceMs
    && forall i | c <= i < |run| && run[i].op.Step? :: run[i].op.pressed == candidate
  }

  lemma SampleKept(e: Event, link: Link)
    requires e.post == Exec(e.pre, e.op, link)
    ensures !e.op.Step? ==> e.post.key == e.pre.key
    ensures e.op.Step? ==> e.post.key.candidate == e.op.pressed
    ensures e.op.Step? ==> e.post.key.sinceMs == if e.op.pressed != e.pre.key.candidate then e.op.now else e.pre.key.sinceMs
  {
    hide Serviced, PendingDisable, Measured, Arriving, Stopped, WithRange;
    if e.op.Step? {
      var (key, edge) := KeySample(e.pre.key, e.op.now, e.op.pressed);
      var s := e.pre.(key := key);
      PendingIsPeripheral(s, link);
      ServiceAndKey(PendingDisable(s, link), e.op.now, edge, link);
    }
  }

  lemma {:induction false} CandidateHeld(run: seq<Event>, link: Link, s: Controller) returns (c: nat)
    requires Reached(run, link, s) && s.key.candidate
    ensures HeldSince(run, c, true, s.key.sinceMs)
  {
    hide Exec;
    assert run != [];
    var last := run[|run| - 1];
    Prefix(run, link);
    SampleKept(last, link);
    if last.pre.key.candidate {
      c := CandidateHeld(run[..|run| - 1], link, last.pre);
    } else {
      c := |run| - 1;
    }
  }

  /** An accepted move is preceded by samples that were all pressed for at least twenty milliseconds. */
  lemma AcceptedAfterSteadyPress(run: seq<Event>, link: Link, j: nat) returns (c: nat)
    requires IsRun(run, link) && j < |run| && Accepts(run[j])
    ensures c < j && run[c].op.Step? && run[j].op.Step? && Elapsed32(run[j].op.now, run[c].op.now) >= DEBOUNCE_MS
    ensures forall i | c <= i <= j && run[i].op.Step? :: run[i].op.pressed
  {
    hide Exec, Accepts;
    AcceptConsumesEdge(run[j], link);
    PreReached(run, link, j);
    c := CandidateHeld(run[..j], link, run[j].pre);
    assert run[..j][c] == run[c];
    forall i | c <= i <= j && run[i].op.Step?
      ensures run[i].op.pressed
    {
      if i < j { assert run[..j][i] == run[i]; }
    }
  }

  // ----- Arrival -----

  /** A report of motor m that the arrival counter looks at. */
  predicate Reports(e: Event, m: nat)
    requires m < 2
  {
    && e.op.Frame? && |e.op.frame.data| == 8 && MotorOf(e.op.frame.identifier) == Some(m)
    && Tracks(e.pre.stage) && IsFeedback(e.pre, m, e.op.frame) && e.op.frame.data[0] / 16 < 8
  }

  /** How many of the latest reports of motor m, since the move began, were in tolerance in a row. */
  function Streak(run: seq<Event>, m: nat): nat
    requires m < 2
  {
    if run == [] then 0
    else
      var last, before := run[|run| - 1], run[..|run| - 1];
      if !Tracks(last.pre.stage) then 0
      else if !Reports(last, m) then Streak(before, m)
      else if InTolerance(last.post.motors[m]) then Streak(before, m) + 1
      else 0
  }

  function Capped(n: nat): nat {
    if n < ARRIVAL_CYCLES then n else ARRIVAL_CYCLES
  }

  lemma Tolerances(m: Motor)
    ensures InTolerance(Arriving(m)) == InTolerance(m)
    ensures Arriving(m).cycles == if InTolerance(m) then (if m.cycles < ARRIVAL_CYCLES then m.cycles + 1 else m.cycles) else 0
  {
    hide ArrivalLimit;
  }

  lemma FeedbackCounts(s: Controller, m: nat, f: CanFrame, now: nat)
    requires m < 2 && |f.data| == 8 && Tracks(s.stage) && IsFeedback(s, m, f) && f.data[0] / 16 < 8
    requires s.motors[m].cycles <= ARRIVAL_CYCLES
    ensures var t := OnFeedback(s, m, f, now);
            Tracks(t.stage) && t.motors[m].cycles == if InTolerance(t.motors[m]) then Capped(s.motors[m].cycles + 1) else 0
  {
    hide InTolerance;
    var x := Measured(s.motors[m], f, now);
    MeasuredSame(s.motors[m], f, now);
    assert x.driver == f.data[0] as nat / 16;
    var y := x.(enabled := x.driver == 1);
    Tolerances(y);
    hide Measured, Arriving;
  }

  /** Anything else leaves the counters of a move under way alone. */
  lemma OthersKeepCount(e: Event, link: Link, m: nat)
    requires m < 2 && e.post == Exec(e.pre, e.op, link) && Inv(e.pre) && Tracks(e.post.stage) && Tracks(e.pre.stage)
    requires !Reports(e, m)
    ensures e.post.motors[m].cycles == e.pre.motors[m].cycles
  {
    hide Serviced, PendingDisable, Stopped, InTolerance, Inv;
    match e.op
    case Step(now, pressed) =>
      var (key, edge) := KeySample(e.pre.key, now, pressed);
      var s := e.pre.(key := key);
      PendingIsPeripheral(s, link);
      ServiceKeepsCount(PendingDisable(s, link), now, edge, link, m);
    case Frame(f, value, now) =>
      if |f.data| == 8 && MotorOf(f.identifier).Some? {
        var n := MotorOf(f.identifier).value;
        OtherFeedback(e.pre, n, m, f, now);
      }
    case BusOff =>
    case StartFailure =>
  }

  lemma ServiceKeepsCount(s: Controller, now: nat, edge: bool, link: Link, m: nat)
    requires m < 2 && Tracks(s.stage) && Tracks(Serviced(s, now, edge, link).stage)
    ensures Serviced(s, now, edge, link).motors[m].cycles == s.motors[m].cycles
  {
    hide SendBoth, AcceptMove, Recent, Stopped;
    var t := Armed(s);
    AcceptLeaves(t.(key := t.key.(armed := false)), now, link);
    SendBothIsPeripheral(t, Target(0, t.motors[0].target), Target(1, t.motors[1].target), link);
    SendBothIsPeripheral(s, Target(0, s.motors[0].target), Target(1, s.motors[1].target), link);
  }

  lemma AcceptLeaves(s: Controller, now: nat, link: Link)
    ensures AcceptMove(s, now, link).stage == Stage.Enabling || AcceptMove(s, now, link).stage == Fault
  {
    hide SendBoth, Fits, Aimed, Stopped;
    if Chosen(s).Some? {
      var t := Aiming(s, Chosen(s).value, now);
      if !SendBoth(t, Enable(0), Enable(1), link).1 { RejectedFaults(t, Enable(0), Enable(1), link); }
    }
  }

  lemma OtherFeedback(s: Controller, n: nat, m: nat, f: CanFrame, now: nat)
    requires n < 2 && m < 2 && |f.data| == 8 && Tracks(OnFeedback(s, n, f, now).stage)
    requires n == m ==> !(IsFeedback(s, m, f) && f.data[0] / 16 < 8)
    ensures OnFeedback(s, n, f, now).motors[m].cycles == s.motors[m].cycles
  {
    hide Arriving, Stopped;
  }

  /** The counter is the number of latest in-tolerance reports in a row, capped at three. */
  lemma {:induction false} CyclesAreStreak(run: seq<Event>, link: Link, s: Controller, m: nat)
    requires Reached(run, link, s) && Tracks(s.stage) && m < 2
    ensures s.motors[m].cycles == Capped(Streak(run, m))
  {
    assert run != [];
    var last, before := run[|run| - 1], run[..|run| - 1];
    Prefix(run, link);
    EveryRunKeepsInv(before, link, last.pre);
    if !Tracks(last.pre.stage) {
      EntersEmpty(last, link, m);
    } else {
      CyclesAreStreak(before, link, last.pre, m);
      hide InTolerance, Inv;
      if Reports(last, m) {
        assert last.pre.motors[m].cycles <= ARRIVAL_CYCLES;
        FeedbackCounts(last.pre, m, last.op.frame, last.op.now);
      } else {
        OthersKeepCount(last, link, m);
      }
    }
  }

  /** A move starts tracking only out of ENABLING, with both counters at zero. */
  lemma EntersEmpty(e: Event, link: Link, m: nat)
    requires m < 2 && e.post == Exec(e.pre, e.op, link) && Inv(e.pre) && !Tracks(e.pre.stage) && Tracks(e.post.stage)
    ensures e.pre.stage == Stage.Enabling && e.post.motors[m].cycles == 0
  {
    hide PendingDisable, Measured, Arriving, Stopped, WithRange, InTolerance, ConfigInv, MoveInv, Serviced;
    if e.op.Step? {
      var (key, edge) := KeySample(e.pre.key, e.op.now, e.op.pressed);
      var s := e.pre.(key := key);
      PendingIsPeripheral(s, link);
      ServiceEnters(PendingDisable(s, link), e.op.now, edge, link, m);
    }
  }

  lemma ServiceEnters(s: Controller, now: nat, edge: bool, link: Link, m: nat)
    requires m < 2 && !Tracks(s.stage) && Tracks(Serviced(s, now, edge, link).stage)
    ensures s.stage == Stage.Enabling && Serviced(s, now, edge, link).motors[m].cycles == s.motors[m].cycles
  {
    hide SendBoth, AcceptMove, Recent, Stopped;
    var t := Armed(s);
    AcceptLeaves(t.(key := t.key.(armed := false)), now, link);
    SendBothIsPeripheral(t, Disable(0), Disable(1), link);
    var u := s.(stage := Moving, move := s.move.(startMs := now));
    SendBothIsPeripheral(u, Target(0, s.motors[0].target), Target(1, s.motors[1].target), link);
  }

  /** Entering HOLDING means that each motor's last three reports of the move were all in tolerance. */
  lemma HoldingNeedsArrival(run: seq<Event>, link: Link, i: nat, m: nat) returns (at: seq<nat>)
    requires IsRun(run, link) && i < |run| && m < 2 && run[i].pre.stage == Moving && run[i].post.stage == Holding
    ensures |at| >= ARRIVAL_CYCLES && LatestReports(run[..i + 1], m, at)
  {
    hide Exec, Streak, ConfigInv, MoveInv, LatestReports;
    var upTo := run[..i + 1];
    assert Reached(upTo, link, run[i].post);
    CyclesAreStreak(upTo, link, run[i].post, m);
    EveryRunKeepsInv(upTo, link, run[i].post);
    EntersHolding(run[i], link);
    at := StreakIsLatestReports(upTo, m);
  }

  lemma EntersHolding(e: Event, link: Link)
    requires e.post == Exec(e.pre, e.op, link) && e.pre.stage == Moving && e.post.stage == Holding
    ensures e.post.motors[0].arrived && e.post.motors[1].arrived
  {
    hide PendingDisable, Measured, Arriving, Stopped, InTolerance, SendBoth, AcceptMove, Recent;
    if e.op.Step? {
      var s := e.pre.(key := KeySample(e.pre.key, e.op.now, e.op.pressed).0);
      PendingIsPeripheral(s, link);
      var t := PendingDisable(s, link);
      SendBothIsPeripheral(t, Target(0, t.motors[0].target), Target(1, t.motors[1].target), link);
    }
  }

  predicate GoodReport(e: Event, m: nat)
    requires m < 2
  {
    Reports(e, m) && InTolerance(e.post.motors[m])
  }

  /** `at` lists, in order, the latest reports of the motor since the move began, all in tolerance. */
  ghost predicate LatestReports(run: seq<Event>, m: nat, at: seq<nat>)
    requires m < 2
  {
    && (forall k | 0 <= k < |at| :: at[k] < |run| && GoodReport(run[at[k]], m))
    && (forall k | 0 <= k < |at| - 1 :: at[k] < at[k + 1])
    && (at != [] ==> forall i | at[0] <= i < |run| :: Tracks(run[i].pre.stage) && (Reports(run[i], m) ==> i in at))
  }

  /** A streak of k means the k latest reports of the move exist and are all in tolerance. */
  lemma {:induction false} StreakIsLatestReports(run: seq<Event>, m: nat) returns (at: seq<nat>)
    requires m < 2
    ensures |at| == Streak(run, m) && LatestReports(run, m, at)
  {
    hide InTolerance, Reports, LatestReports;
    at := [];
    if run != [] && Tracks(run[|run| - 1].pre.stage) {
      var before := run[..|run| - 1];
      at := StreakIsLatestReports(before, m);
      if !Reports(run[|run| - 1], m) {
        KeepReports(run, m, at);
      } else if InTolerance(run[|run| - 1].post.motors[m]) {
        AddReport(run, m, at);
        at := at + [|run| - 1];
      } else {
        at := [];
        NoReports(run, m);
      }
    } else {
      NoReports(run, m);
    }
  }

  lemma NoReports(run: seq<Event>, m: nat)
    requires m < 2
    ensures LatestReports(run, m, [])
  {
  }

  lemma KeepReports(run: seq<Event>, m: nat, at: seq<nat>)
    requires run != [] && m < 2 && LatestReports(run[..|run| - 1], m, at)
    requires Tracks(run[|run| - 1].pre.stage) && !Reports(run[|run| - 1], m)
    ensures LatestReports(run, m, at)
  {
    hide GoodReport, Reports;
    var before := run[..|run| - 1];
    assert forall i | 0 <= i < |before| :: run[i] == before[i];
  }

  lemma AddReport(run: seq<Event>, m: nat, at: seq<nat>)
    requires run != [] && m < 2 && LatestReports(run[..|run| - 1], m, at)
    requires Tracks(run[|run| - 1].pre.stage) && GoodReport(run[|run| - 1], m)
    ensures LatestReports(run, m, at + [|run| - 1])
  {
    hide GoodReport, Reports;
    var before, all := run[..|run| - 1], at + [|run| - 1];
    assert forall i | 0 <= i < |before| :: run[i] == before[i];
    assert all[|at|] == |run| - 1;
    assert forall k | 0 <= k < |at| :: all[k] == at[k];
    forall i | all[0] <= i < |run| && Reports(run[i], m)
      ensures i in all
    {
      if i < |run| - 1 { assert i in at; }
    }
  }

  // ----- Speed quantisation -----

  /** The two velocity codes nearest zero pass the speed test for every positive range; no other
      code does. */
  lemma OnlyZeroCodesAlwaysPass(code: nat)
    requires code < 4096
    ensures (forall vmax: real | vmax > 0.0 :: Abs(Symmetric(code, vmax, 4095)) <= ArrivalLimit(vmax)) <==> code == 2047 || code == 2048
  {
    if code == 2047 || code == 2048 {
      forall vmax: real | vmax > 0.0
        ensures Abs(Symmetric(code, vmax, 4095)) <= ArrivalLimit(vmax)
      {
        CodeSpeed(code, vmax);
      }
    } else {
      var vmax := 4095.0;
      CodeSpeed(code, vmax);
      assert Abs(Symmetric(code, vmax, 4095)) > ArrivalLimit(vmax);
    }
  }

  lemma CodeSpeed(code: nat, vmax: real)
    requires vmax > 0.0
    ensures Symmetric(code, vmax, 4095) == (2 * code - 4095) as real * (vmax / 4095.0)
  {
    var q := vmax / 4095.0;
    assert vmax == q * 4095.0;
    assert code as real * (2.0 * vmax) == (code as real * (2.0 * q)) * 4095.0;
    assert code as real * (2.0 * vmax) / 4095.0 == code as real * (2.0 * q);
  }
}
