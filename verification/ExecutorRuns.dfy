/** Whole runs of the service loop: result conservation, exactly one terminal for every one-shot,
    the scope of every STOP, and how motors leave the unconfirmed-disable debt. */
module ExecutorRuns {
  import opened Common
  import opened DeferredResults
  import opened OneShot
  import opened Executor
  import OneShotRuns

  // ----- Invariant -----

  /** While a one-shot is active no result is waiting, so its terminal can always be stored. */
  predicate Inv(e: Loop) {
    && e.debt.Valid() && |e.queue.waiting| <= CAPACITY
    && (e.job.Active? ==> e.job.action.Valid() && e.queue.waiting == [])
  }

  /** Terminals of begun one-shots, in order. */
  function Terminals(rs: seq<Result>): seq<nat> {
    if rs == [] then []
    else Terminals(rs[..|rs| - 1]) + if rs[|rs| - 1].source == OfOneShot then [rs[|rs| - 1].id] else []
  }

  /** Terminals stored so far, then the one-shot still owing one. */
  function Ledger(e: Loop): seq<nat> {
    Terminals(Accepted(e.queue)) + if e.job.Active? then [e.job.id] else []
  }

  lemma TerminalsOfMore(rs: seq<Result>, r: Result)
    ensures Terminals(rs + [r]) == Terminals(rs) + if r.source == OfOneShot then [r.id] else []
  {
    assert (rs + [r])[..|rs|] == rs;
  }

  // ----- Each building block -----

  lemma SubmitKeeps(e: Loop, r: Result, engine: Engine)
    requires e.debt.Valid() && |e.queue.waiting| <= CAPACITY && r.source != OfOneShot
    ensures var f := Store(e, r, engine);
            f.debt == e.debt && f.job == e.job && f.fallback == e.fallback && |f.queue.waiting| <= CAPACITY && Ledger(f) == Ledger(e)
    ensures e.queue.waiting == [] ==> |Store(e, r, engine).queue.waiting| <= 1
  {
    SubmitKeepsOrder(e.queue, r, engine);
    TerminalsOfMore(Accepted(e.queue), r);
  }

  lemma CompleteKeeps(e: Loop, code: Ending, turn: Turn, engine: Engine)
    requires !e.job.Idle? && e.debt.Valid() && |e.queue.waiting| <= CAPACITY
    ensures var f := Conclude(e, code, turn, engine);
            f.debt.Valid() && |f.queue.waiting| <= CAPACITY && Ledger(f) == Ledger(e) && (f.job == Idle || f.job == e.job)
            && f.fallback == e.fallback && e.debt.mask <= f.debt.mask
    ensures HasRoom(e.queue) ==> Conclude(e, code, turn, engine).job == Idle
  {
    var r := Result(e.job.id, if e.job.Active? then OfOneShot else OfOther, code);
    hide Submitted, Accepted, Terminals, Locked;
    SubmitKeepsOrder(e.queue, r, engine);
    assert Locked(e.debt, e.job.Mask(), turn.now).Valid() && e.debt.mask <= Locked(e.debt, e.job.Mask(), turn.now).mask;
    var (queue, stored) := Submitted(e.queue, r, engine);
    if stored { LedgerStored(e, r, Conclude(e, code, turn, engine)); }
  }

  /** Storing the terminal of the active job moves it from owed to stored. */
  lemma LedgerStored(e: Loop, r: Result, f: Loop)
    requires !e.job.Idle? && f.job == Idle && Accepted(f.queue) == Accepted(e.queue) + [r]
    requires r.id == e.job.id && r.source == if e.job.Active? then OfOneShot else OfOther
    ensures Ledger(f) == Ledger(e)
  {
    hide Accepted, Terminals;
    TerminalsOfMore(Accepted(e.queue), r);
  }

  /** Storing the outcome of a one-shot call: it lives on, or its terminal is stored at once. */
  lemma SettleKeeps(e: Loop, id: nat, outcome: (Action, Option<Terminal>), turn: Turn, engine: Engine)
    requires e.debt.Valid() && e.queue.waiting == [] && outcome.0.Valid()
    ensures var f := Settle(e, id, outcome, turn, engine);
            Inv(f) && Ledger(f) == Terminals(Accepted(e.queue)) + [id]
    ensures e.debt.mask <= Settle(e, id, outcome, turn, engine).debt.mask
  {
    if outcome.1.Some? { CompleteKeeps(e.(job := Active(id, outcome.0)), EndingOf(outcome.1.value.code), turn, engine); }
    hide Conclude, Terminals;
  }

  lemma StartStopKeeps(e: Loop, id: nat, mask: set<nat>, cleanup: bool, turn: Turn, engine: Engine)
    requires e.debt.Valid() && |e.queue.waiting| <= CAPACITY && !e.job.Active?
    ensures var f := StartStop(e, id, mask, cleanup, turn, engine); Inv(f) && Ledger(f) == Ledger(e)
    ensures e.debt == StartStop(e, id, mask, cleanup, turn, engine).debt
  {
    if turn.refuses { SubmitKeeps(e, Result(id, OfOther, EndedFailed), engine); }
    hide Store, Terminals;
  }

  lemma FaultKeeps(e: Loop, turn: Turn, engine: Engine)
    requires Inv(e)
    ensures var f := GlobalFault(e, turn, engine); Inv(f) && Ledger(f) == Ledger(e) && e.debt.mask <= f.debt.mask
  {
    hide Conclude, Store, Terminals, Submitted, Ledger;
    if !e.job.Idle? { CompleteKeeps(e, EndedFailed, turn, engine); }
    var f := if e.job.Idle? then e else Conclude(e, EndedFailed, turn, engine);
    if turn.queued.Some? { SubmitKeeps(f, Result(turn.queued.value.id, OfQueued, EndedFailed), engine); }
  }

  lemma WatchdogKeeps(e: Loop, turn: Turn, engine: Engine)
    requires Inv(e) && !e.job.Active?
    ensures var f := WatchdogExpired(e, turn, engine); Inv(f) && Ledger(f) == Ledger(e) && e.debt.mask <= f.debt.mask
  {
    hide Conclude, Store, Terminals, Submitted, Ledger;
    if !e.job.Idle? { CompleteKeeps(e, EndedCancelled, turn, engine); }
    var f := if e.job.Idle? then e else Conclude(e, EndedCancelled, turn, engine);
    if turn.queued.Some? { SubmitKeeps(f, Result(turn.queued.value.id, OfQueued, EndedFailed), engine); }
    var g := if turn.queued.Some? then Store(f, Result(turn.queued.value.id, OfQueued, EndedFailed), engine) else f;
    SubmitKeeps(g, Result(0, OfOther, EndedStopped), engine);
  }

  lemma {:induction false} CancelKeeps(e: Loop, ids: seq<nat>, engine: Engine)
    requires e.debt.Valid() && |e.queue.waiting| <= CAPACITY && !e.job.Active?
    ensures var f := CancelQueued(e, ids, engine); |f.queue.waiting| <= CAPACITY && Ledger(f) == Ledger(e)
    decreases |ids|
  {
    hide Store, Terminals, Submitted, Ledger;
    if ids != [] && HasRoom(e.queue) {
      SubmitKeeps(e, Result(ids[0], OfQueued, EndedCancelled), engine);
      CancelKeeps(Store(e, Result(ids[0], OfQueued, EndedCancelled), engine), ids[1..], engine);
    }
  }

  lemma BypassKeeps(e: Loop, turn: Turn, engine: Engine)
    requires Inv(e) && turn.env.Sized()
    ensures var f := Bypass(e, turn, engine); Inv(f) && Ledger(f) == Ledger(e) && e.debt.mask <= f.debt.mask
  {
    hide Conclude, CancelQueued, Terminals, Submitted, Recovered;
    if !e.job.Idle? && HasRoom(e.queue) { CompleteKeeps(e, EndedCancelled, turn, engine); }
    var f := if !e.job.Idle? && HasRoom(e.queue) then Conclude(e, EndedCancelled, turn, engine) else e;
    var ids := if |turn.poppable| <= COMMAND_CAPACITY + 1 then turn.poppable else turn.poppable[..COMMAND_CAPACITY + 1];
    CancelKeeps(f, ids, engine);
  }

  lemma StopActiveKeeps(e: Loop, turn: Turn, engine: Engine)
    requires Inv(e) && !e.job.Idle? && HasRoom(e.queue) && turn.stop.Some?
    ensures var f := StopActive(e, turn, engine).0; Inv(f) && Ledger(f) == Ledger(e) && e.debt.mask <= f.debt.mask
  {
    hide Conclude, StartStop, Terminals, Submitted, Ledger;
    CompleteKeeps(e, EndedCancelled, turn, engine);
    var mask := turn.stop.value.mask + e.debt.mask + e.job.Mask();
    var cleanup := e.debt.mask != {} || (e.job.Other? && e.job.cleanupAfterStop);
    StartStopKeeps(Conclude(e, EndedCancelled, turn, engine), turn.stop.value.id, mask, cleanup, turn, engine);
  }

  lemma StopIdleKeeps(e: Loop, turn: Turn, engine: Engine)
    requires Inv(e) && e.job.Idle? && turn.stop.Some?
    ensures var f := StopIdle(e, turn, engine).0; Inv(f) && Ledger(f) == Ledger(e) && e.debt.mask <= f.debt.mask
  {
    hide Store, StartStop, Terminals, Submitted, Ledger;
    if turn.queued.Some? { SubmitKeeps(e, Result(turn.queued.value.id, OfQueued, EndedCancelled), engine); }
    var queuedMask := if turn.queued.Some? then turn.queued.value.mask else {};
    var mask := turn.stop.value.mask + e.debt.mask + queuedMask;
    var f := if turn.queued.Some? then Store(e, Result(turn.queued.value.id, OfQueued, EndedCancelled), engine) else e;
    StartStopKeeps(f, turn.stop.value.id, mask, e.debt.mask != {}, turn, engine);
  }

  // ----- One service call -----

  function BegunIds(r: Report): seq<nat> {
    if r.begun.Some? then [r.begun.value] else []
  }

  lemma OutcomesValid(a: Action, e: Env, now: nat)
    requires a.Valid() && e.Sized()
    ensures Setup(a, e, now).0.Valid()
    ensures GuardedStage(a.state).Some? ==> forall f :: Cleanup(a, f, e, now).0.Valid()
  {
    hide Setup, Cleanup, OneShotRuns.Success;
    if Rank(a.state) <= 3 { OneShotRuns.SetupEarly(a, e, now); }
    else if Rank(a.state) <= 5 { OneShotRuns.SetupMiddle(a, e, now); }
    else if Rank(a.state) <= 8 { OneShotRuns.SetupLate(a, e, now); }
    else { OneShotRuns.SetupCleanup(a, e, now); }
    forall f | GuardedStage(a.state).Some? ensures Cleanup(a, f, e, now).0.Valid() {
      OneShotRuns.CleanupProgresses(a, f, e, now);
    }
  }

  lemma StartValid(c: Command, e: Env, now: nat)
    requires c.Valid() && e.Sized()
    ensures Started(c, e, now).0.Valid()
  {
    hide Prepare, Cleanup, FirstNotFinite;
    var a := OneShot.Fresh(c);
    OneShotRuns.PrepareProgresses(a, e, now);
    if FirstNotFinite(c, 0).Some? { OneShotRuns.CleanupProgresses(a, Failure(Validate, ActionFailed, FirstNotFinite(c, 0).value + 1), e, now); }
    if e.begins.Some? { OneShotRuns.CleanupProgresses(a, Failure(DiscoveryStage, e.begins.value, 0), e, now); }
  }

  lemma WorkKeeps(e: Loop, turn: Turn, engine: Engine)
    requires Inv(e) && turn.Valid()
    ensures var (f, r) := Worked(e, turn, engine); Inv(f) && Ledger(f) == Ledger(e) + BegunIds(r) && e.debt.mask <= f.debt.mask
  {
    hide Settle, StopActive, StopIdle, Terminals, Submitted, WatchdogExpired, Cleanup, Setup, Started, FirstUnsafe, Conclude, StartStop, Store;
    match e.job
    case Active(id, a) =>
      OutcomesValid(a, turn.env, turn.now);
      if GuardedStage(a.state).Some? && FirstUnsafe(a, turn.env, 0, turn.now).Some? {
        SettleKeeps(e, id, Cleanup(a, FirstUnsafe(a, turn.env, 0, turn.now).value, turn.env, turn.now), turn, engine);
      } else if turn.stop.Some? {
        StopActiveKeeps(e, turn, engine);
        StopBeginsNone(e, turn, engine);
      } else {
        SettleKeeps(e, id, Setup(a, turn.env, turn.now), turn, engine);
      }
    case Other(id, mask, isStop, cleanup) =>
      if turn.watchdog { WatchdogKeeps(e, turn, engine); }
      else if HasRoom(e.queue) && turn.stop.Some? { StopActiveKeeps(e, turn, engine); StopBeginsNone(e, turn, engine); }
      else if isStop && !HasRoom(e.queue) && turn.widened.Some? {
        StartStopKeeps(e, id, turn.widened.value + mask, cleanup, turn, engine);
      } else if turn.otherEnds.Some? { CompleteKeeps(e, turn.otherEnds.value, turn, engine); }
    case Idle =>
      if turn.watchdog { WatchdogKeeps(e, turn, engine); }
      else if HasRoom(e.queue) && turn.stop.Some? { StopIdleKeeps(e, turn, engine); StopBeginsNone(e, turn, engine); }
      else if e.queue.waiting == [] && turn.next.Some? {
        match turn.next.value
        case NextOneShot(id, c) =>
          StartValid(c, turn.env, turn.now);
          SettleKeeps(e, id, Started(c, turn.env, turn.now), turn, engine);
        case NextOther(id, mask) =>
          if turn.refuses { SubmitKeeps(e, Result(id, OfOther, EndedFailed), engine); }
      }
  }

  lemma StopBeginsNone(e: Loop, turn: Turn, engine: Engine)
    requires e.debt.Valid() && turn.stop.Some?
    ensures !e.job.Idle? ==> StopActive(e, turn, engine).1.begun == None
    ensures e.job.Idle? ==> StopIdle(e, turn, engine).1.begun == None
  {
  }

  /** The loop keeps its invariant; the ledger of one-shots grows exactly by the one it begins. */
  lemma ServiceKeeps(e: Loop, turn: Turn, engine: Engine)
    requires Inv(e) && turn.Valid()
    ensures var (f, r) := ServiceLoop(e, turn, engine); Inv(f) && Ledger(f) == Ledger(e) + BegunIds(r)
  {
    hide Worked, Bypass, GlobalFault, Flushed, Terminals, Recovered;
    FlushKeepsOrder(e.queue, engine);
    var f := Health(e.(queue := Flushed(e.queue, engine)), turn);
    if e.job.Active? { FlushedEmpty(e.queue, engine); }
    assert Inv(f) && Ledger(f) == Ledger(e);
    var g := LatchedLoop(f, turn);
    assert Inv(g) && Ledger(g) == Ledger(f);
    FaultKeeps(f, turn, engine);
    BypassKeeps(g, turn, engine);
    WorkKeeps(f, turn, engine);
    hide Inv, Ledger, LatchedLoop;
  }

  function LatchedLoop(e: Loop, turn: Turn): Loop
    requires e.debt.Valid()
  {
    Executor.Latched(e, turn)
  }

  lemma FlushedEmpty(q: Queue<Result>, engine: Engine)
    requires q.waiting == []
    ensures Flushed(q, engine) == q
  {
  }

  // ----- Runs -----

  /** A service call, a frame leaving the active batch, or a request to hand control over. `queued`
      says that a command or a STOP waits, `admitted` what the remaining admission tests decide. */
  datatype Op = Call(turn: Turn) | PopFrame(now: nat) | Handover(snapshot: Snapshot, queued: bool, admitted: bool)

  predicate OpOk(op: Op) {
    match op case Call(turn) => turn.Valid() case PopFrame(_) => true case Handover(s, _, _) => s.Sized()
  }

  /** A hand-over is only admitted while nothing executes, on the evidence that clears the debt. */
  function Do(e: Loop, op: Op, engine: Engine): (Loop, Report)
    requires Inv(e) && OpOk(op)
  {
    match op
    case Call(turn) => ServiceLoop(e, turn, engine)
    case PopFrame(now) => (if e.job.Active? then e.(job := Active(e.job.id, Popped(e.job.action, now))) else e, QUIET)
    case Handover(s, queued, admitted) =>
      (if !Executing(e) && !queued && admitted && Recovered(e.debt, s) then e.(debt := e.debt.(mask := {})) else e, QUIET)
  }

  datatype Step = Step(op: Op, pre: Loop, post: Loop, report: Report)

  function Boot(): Loop {
    Loop(Idle, Empty(), Debt({}, seq(JOINTS, _ => 0)), Fallback({}, 0))
  }

  ghost predicate IsRun(run: seq<Step>, engine: Engine) {
    && (forall i | 0 <= i < |run| :: OpOk(run[i].op) && Inv(run[i].pre) && (run[i].post, run[i].report) == Do(run[i].pre, run[i].op, engine))
    && (forall i | 0 <= i < |run| - 1 :: run[i].post == run[i + 1].pre)
    && (run != [] ==> run[0].pre == Boot())
  }

  function Final(run: seq<Step>): Loop {
    if run == [] then Boot() else run[|run| - 1].post
  }

  lemma StepKeeps(e: Loop, op: Op, engine: Engine)
    requires Inv(e) && OpOk(op)
    ensures var (f, r) := Do(e, op, engine); Inv(f) && Ledger(f) == Ledger(e) + BegunIds(r)
  {
    hide ServiceLoop, Recovered;
    match op
    case Call(turn) => ServiceKeeps(e, turn, engine);
    case PopFrame(now) =>
    case Handover(s, queued, admitted) =>
  }

  /** From boot every sequence of calls keeps the invariant, so the runs below are all of them. */
  lemma RunsExtend(run: seq<Step>, op: Op, engine: Engine)
    requires IsRun(run, engine) && OpOk(op)
    ensures Inv(Final(run))
    ensures var (f, r) := Do(Final(run), op, engine); IsRun(run + [Step(op, Final(run), f, r)], engine)
  {
    hide Do, Inv, OpOk, Ledger;
    if run != [] { StepKeeps(run[|run| - 1].pre, run[|run| - 1].op, engine); } else { BootInv(); }
  }

  lemma BootInv()
    ensures Inv(Boot())
  {
  }

  /** In every reachable state an active one-shot has nothing waiting in the result store, and its
      terminal will be accepted whatever the engine answers. */
  lemma ActiveCanAlwaysEnd(run: seq<Step>, engine: Engine, code: Ending, turn: Turn)
    requires IsRun(run, engine) && Final(run).job.Active?
    ensures Final(run).queue.waiting == [] && Final(run).debt.Valid()
    ensures Conclude(Final(run), code, turn, engine).job == Idle
  {
    if run != [] { StepKeeps(run[|run| - 1].pre, run[|run| - 1].op, engine); }
    hide Do;
    CompleteKeeps(Final(run), code, turn, engine);
  }

  function Begun(run: seq<Step>): seq<nat> {
    if run == [] then [] else Begun(run[..|run| - 1]) + BegunIds(run[|run| - 1].report)
  }

  /** Every one-shot yields exactly one terminal: the accepted terminals of one-shots, in order,
      are the begun ones in order, except for the one still active. */
  lemma {:induction false} OneTerminalEach(run: seq<Step>, engine: Engine)
    requires IsRun(run, engine)
    ensures Terminals(Accepted(Final(run).queue)) + (if Final(run).job.Active? then [Final(run).job.id] else []) == Begun(run)
  {
    hide Do, Inv, OpOk;
    if run != [] {
      var last := run[|run| - 1];
      OneTerminalEach(run[..|run| - 1], engine);
      StepKeeps(last.pre, last.op, engine);
      assert last.pre == Final(run[..|run| - 1]);
    }
  }

  // ----- STOP scope and the unconfirmed debt -----

  /** A debt that only grew, every new or renewed lock being stamped with the call's time. */
  predicate Grew(d: Debt, f: Debt, now: nat) {
    && d.Valid() && f.Valid() && d.mask <= f.mask
    && (forall j | 0 <= j < JOINTS :: f.afterUs[j] == d.afterUs[j] || f.afterUs[j] == now)
    && (forall j | 0 <= j < JOINTS && j in f.mask && j !in d.mask :: f.afterUs[j] == now)
  }

  lemma LockedGrew(d: Debt, mask: set<nat>, now: nat)
    requires d.Valid()
    ensures Grew(d, Locked(d, mask, now), now)
  {
  }

  lemma ConcludeGrew(e: Loop, code: Ending, turn: Turn, engine: Engine)
    requires !e.job.Idle? && e.debt.Valid()
    ensures Grew(e.debt, Conclude(e, code, turn, engine).debt, turn.now)
  {
    hide Submitted, Locked, Grew;
    LockedGrew(e.debt, e.job.Mask(), turn.now);
    LockedGrew(e.debt, {}, turn.now);
    NotGrown(e.debt, turn.now);
  }

  lemma NotGrown(d: Debt, now: nat)
    requires d.Valid()
    ensures Grew(d, d, now)
  {
  }

  lemma SettleGrew(e: Loop, id: nat, outcome: (Action, Option<Terminal>), turn: Turn, engine: Engine)
    requires e.debt.Valid()
    ensures Grew(e.debt, Settle(e, id, outcome, turn, engine).debt, turn.now)
  {
    hide Conclude, Grew;
    NotGrown(e.debt, turn.now);
    if outcome.1.Some? { ConcludeGrew(e.(job := Active(id, outcome.0)), EndingOf(outcome.1.value.code), turn, engine); }
  }

  lemma FaultGrew(e: Loop, turn: Turn, engine: Engine)
    requires e.debt.Valid()
    ensures Grew(e.debt, GlobalFault(e, turn, engine).debt, turn.now)
  {
    hide Conclude, Grew, Submitted;
    NotGrown(e.debt, turn.now);
    if !e.job.Idle? { ConcludeGrew(e, EndedFailed, turn, engine); }
  }

  lemma BypassGrew(e: Loop, turn: Turn, engine: Engine)
    requires e.debt.Valid() && turn.env.Sized()
    ensures Grew(e.debt, Bypass(e, turn, engine).debt, turn.now)
  {
    hide Conclude, Grew, CancelQueued, Recovered;
    NotGrown(e.debt, turn.now);
    if !e.job.Idle? && HasRoom(e.queue) { ConcludeGrew(e, EndedCancelled, turn, engine); }
  }

  /** A popped STOP covers the debt, and the active or queued motion it cancels. */
  predicate Covers(e: Loop, turn: Turn, r: Report) {
    r.stopped.Some? ==>
      && turn.stop.Some? && turn.stop.value.mask <= r.stopped.value && e.debt.mask <= r.stopped.value
      && e.job.Mask() <= r.stopped.value && (e.job.Idle? && turn.queued.Some? ==> turn.queued.value.mask <= r.stopped.value)
  }

  lemma WorkGrew(e: Loop, turn: Turn, engine: Engine)
    requires Inv(e) && turn.Valid()
    ensures var (f, r) := Worked(e, turn, engine); Grew(e.debt, f.debt, turn.now) && Covers(e, turn, r)
  {
    hide Settle, Conclude, Grew, Submitted, Cleanup, Setup, Started, FirstUnsafe;
    NotGrown(e.debt, turn.now);
    if !e.job.Idle? {
      ConcludeGrew(e, EndedCancelled, turn, engine);
      if turn.otherEnds.Some? { ConcludeGrew(e, turn.otherEnds.value, turn, engine); }
    }
    if e.job.Active? {
      var a := e.job.action;
      SettleGrew(e, e.job.id, Setup(a, turn.env, turn.now), turn, engine);
      if GuardedStage(a.state).Some? && FirstUnsafe(a, turn.env, 0, turn.now).Some? {
        SettleGrew(e, e.job.id, Cleanup(a, FirstUnsafe(a, turn.env, 0, turn.now).value, turn.env, turn.now), turn, engine);
      }
    }
    if turn.next.Some? && turn.next.value.NextOneShot? {
      SettleGrew(e, turn.next.value.id, Started(turn.next.value.command, turn.env, turn.now), turn, engine);
    }
  }

  /** What health service decides about in a call: the loop with the deliverable results gone. */
  function Delivered(e: Loop, engine: Engine): Loop {
    e.(queue := Flushed(e.queue, engine))
  }

  /** One call: the debt is first cleared, on full evidence and while nothing executes or waits, or
      not at all; then it only grows. A call that pops a STOP does not clear it, and the STOP covers
      all of it together with the motion it cancels. */
  lemma ServiceDebt(e: Loop, turn: Turn, engine: Engine)
    requires Inv(e) && turn.Valid()
    ensures var (f, r) := ServiceLoop(e, turn, engine); var d := Delivered(e, engine); var h := Health(d, turn).debt;
            && Grew(h, f.debt, turn.now) && (h == e.debt || (h == e.debt.(mask := {}) && !Busy(d, turn) && Recovered(e.debt, turn.env.snapshot)))
            && (r.stopped.Some? ==> turn.stop.Some? && turn.stop.value.mask <= r.stopped.value && h == e.debt && e.debt.mask + e.job.Mask() <= r.stopped.value)
            && (r.stopped.Some? && e.job.Idle? && turn.queued.Some? ==> turn.queued.value.mask <= r.stopped.value)
  {
    hide Worked, Bypass, GlobalFault, Flushed, Recovered, Grew, Locked;
    FlushKeepsOrder(e.queue, engine);
    if e.job.Active? { FlushedEmpty(e.queue, engine); }
    var f := Health(Delivered(e, engine), turn);
    assert Inv(f);
    FaultGrew(f, turn, engine);
    WorkGrew(f, turn, engine);
    var g := LatchedLoop(f, turn);
    NotGrown(f.debt, turn.now);
    LockedGrew(f.debt, f.fallback.mask + Intent(f, turn), turn.now);
    BypassGrew(g, turn, engine);
    GrewTwice(f.debt, g.debt, Bypass(g, turn, engine).debt, turn.now);
  }

  lemma GrewTwice(d: Debt, f: Debt, g: Debt, now: nat)
    requires Grew(d, f, now) && Grew(f, g, now)
    ensures Grew(d, g, now)
  {
  }

  /** Evidence for the whole debt of a step: nothing executes or waits, and every motor in debt
      reported after its own lock. */
  predicate Confirms(step: Step, engine: Engine)
    requires Inv(step.pre) && OpOk(step.op)
  {
    match step.op
    case Call(turn) => !Busy(Delivered(step.pre, engine), turn) && Recovered(step.pre.debt, turn.env.snapshot)
    case PopFrame(_) => false
    case Handover(s, queued, admitted) => !Executing(step.pre) && !queued && admitted && Recovered(step.pre.debt, s)
  }

  /** A motor leaves the unconfirmed debt only in a step where every motor of the debt has valid
      feedback newer than its own lock that is DISABLED, fault-free and nearly still, while no action
      and no bypassing STOP runs and no STOP or command waits. */
  lemma DebtLeavesOnEvidence(run: seq<Step>, engine: Engine, i: nat, j: nat)
    requires IsRun(run, engine) && i < |run| && j in run[i].pre.debt.mask && j !in run[i].post.debt.mask
    ensures Confirms(run[i], engine)
    ensures run[i].pre.job == Idle && run[i].pre.fallback.mask == {} && run[i].report.stopped == None
    ensures run[i].op.Call? ==> !run[i].op.turn.Waiting() && Flushed(run[i].pre.queue, engine).waiting == []
  {
    if run[i].op.Call? { ServiceDebt(run[i].pre, run[i].op.turn, engine); }
    hide ServiceLoop, Recovered, Flushed;
  }

  predicate InDebt(e: Loop, j: nat, at: nat) {
    j < |e.debt.afterUs| && j in e.debt.mask && e.debt.afterUs[j] == at
  }

  /** Step l was a call at that time, and ever since the motor stayed in debt with it as lock time. */
  ghost predicate LockedSince(run: seq<Step>, l: nat, j: nat, at: nat) {
    l < |run| && run[l].op.Call? && run[l].op.turn.now == at && forall i | l <= i < |run| :: InDebt(run[i].post, j, at)
  }

  /** The lock time kept for a motor in debt is that of a service call which locked it. */
  lemma {:induction false} LockTimeIsACall(run: seq<Step>, engine: Engine, j: nat, at: nat) returns (l: nat)
    requires IsRun(run, engine) && j < JOINTS && InDebt(Final(run), j, at)
    ensures LockedSince(run, l, j, at)
  {
    hide Do, Inv;
    assert run != [];
    var before, last := run[..|run| - 1], run[|run| - 1];
    assert last.pre == Final(before);
    LockStep(last, engine, j);
    hide InDebt;
    if InDebt(last.pre, j, at) {
      l := LockTimeIsACall(before, engine, j, at);
    } else {
      l := |run| - 1;
    }
  }

  lemma LockStep(step: Step, engine: Engine, j: nat)
    requires OpOk(step.op) && Inv(step.pre) && (step.post, step.report) == Do(step.pre, step.op, engine)
    requires j < JOINTS && j in step.post.debt.mask
    ensures step.post.debt.Valid() && step.pre.debt.Valid()
    ensures (j in step.pre.debt.mask && step.post.debt.afterUs[j] == step.pre.debt.afterUs[j])
            || (step.op.Call? && step.post.debt.afterUs[j] == step.op.turn.now)
  {
    if step.op.Call? { ServiceDebt(step.pre, step.op.turn, engine); }
    hide ServiceLoop, Recovered;
  }

  /** A motor locked before a STOP was popped is covered by that STOP, unless some earlier step had
      confirmed the whole debt. */
  lemma {:induction false} StopCoversEarlierLocks(run: seq<Step>, engine: Engine, i: nat, k: nat, j: nat)
    requires IsRun(run, engine) && i <= k < |run| && j in run[i].pre.debt.mask && run[k].report.stopped.Some?
    ensures j in run[k].report.stopped.value || exists c :: i <= c < k && Confirms(run[c], engine)
    decreases k - i
  {
    hide ServiceLoop, Recovered, Confirms;
    if i == k {
      StopCovers(run[k], engine);
    } else if j in run[i].post.debt.mask {
      assert run[i + 1].pre == run[i].post;
      StopCoversEarlierLocks(run, engine, i + 1, k, j);
      if exists c :: i + 1 <= c < k && Confirms(run[c], engine) {
        var c :| i + 1 <= c < k && Confirms(run[c], engine);
        assert i <= c < k && Confirms(run[c], engine);
      }
    } else {
      DebtLeavesOnEvidence(run, engine, i, j);
    }
  }

  /** Every STOP popped by the loop covers the whole debt, and the active or queued motion it
      cancels. */
  lemma StopCovers(step: Step, engine: Engine)
    requires OpOk(step.op) && Inv(step.pre) && (step.post, step.report) == Do(step.pre, step.op, engine)
    requires step.report.stopped.Some?
    ensures step.pre.debt.mask <= step.report.stopped.value
    ensures step.op.Call? && step.pre.job.Mask() <= step.report.stopped.value
    ensures step.pre.job.Idle? && step.op.turn.queued.Some? ==> step.op.turn.queued.value.mask <= step.report.stopped.value
    ensures step.op.turn.stop.Some? && step.op.turn.stop.value.mask <= step.report.stopped.value
  {
    if step.op.Call? { ServiceDebt(step.pre, step.op.turn, engine); }
    hide ServiceLoop, Recovered;
  }
}
