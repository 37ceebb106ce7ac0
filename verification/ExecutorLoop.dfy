/** The service loop of module Executor as the static state it updates in place, storing terminals
    in the ring of module DeferredResults. */
module ExecutorLoop {
  import opened Common
  import opened DeferredResults
  import opened OneShot
  import opened Executor

  class ServiceTask {
    const ring: Ring<Result>
    var job: Job
    var debt: Debt
    var fallback: Fallback

    ghost predicate Valid()
      reads this, ring
    {
      ring.Valid() && debt.Valid()
    }

    ghost function Model(): Loop
      requires Valid()
      reads this, ring, ring.slots
    {
      Loop(job, ring.Model(), debt, fallback)
    }

    constructor (engine: Engine)
      ensures Valid() && fresh(ring) && fresh(ring.slots) && ring.engine == engine
      ensures Model() == Loop(Idle, Empty(), Debt({}, seq(JOINTS, _ => 0)), Fallback({}, 0))
    {
      ring := new Ring<Result>(engine, 0);
      job, debt, fallback := Idle, Debt({}, seq(JOINTS, _ => 0)), Fallback({}, 0);
    }

    method StoreResult(r: Result) returns (stored: bool)
      requires Valid()
      modifies ring, ring.slots
      ensures Valid() && Model() == Store(old(Model()), r, ring.engine)
      ensures (ring.Model(), stored) == Submitted(old(ring.Model()), r, ring.engine)
    {
      hide Submitted;
      stored := ring.SubmitOrDefer(r);
    }

    method LockTargets(mask: set<nat>, now: nat)
      requires Valid()
      modifies this`debt
      ensures Valid() && Model() == old(Model()).(debt := Locked(old(debt), mask, now))
    {
      var after := debt.afterUs;
      var j := 0;
      while j < JOINTS
        invariant 0 <= j <= JOINTS && |after| == JOINTS && Valid() && debt == old(debt)
        invariant forall i | 0 <= i < JOINTS :: after[i] == if i < j && i in mask then now else debt.afterUs[i]
      {
        if j in mask { after := after[j := now]; }
        j := j + 1;
      }
      assert after == Locked(debt, mask, now).afterUs;
      debt := Debt(debt.mask + mask, after);
    }

    method CompleteAction(code: Ending, turn: Turn) returns (stored: bool)
      requires Valid() && !job.Idle?
      modifies this, ring, ring.slots
      ensures Valid() && Model() == Conclude(old(Model()), code, turn, ring.engine)
      ensures stored ==> job == Idle
    {
      hide Submitted, Locked;
      var r := Result(job.id, if job.Active? then OfOneShot else OfOther, code);
      stored := ring.SubmitOrDefer(r);
      if !stored { return; }
      if code == EndedFailed && job.Other? && job.cleanupAfterStop && !turn.confirmed {
        LockTargets(job.mask, turn.now);
      }
      job := Idle;
    }

    method SettleAction(id: nat, outcome: (Action, Option<Terminal>), turn: Turn)
      requires Valid()
      modifies this, ring, ring.slots
      ensures Valid() && Model() == Settle(old(Model()), id, outcome, turn, ring.engine)
    {
      hide Conclude;
      job := Active(id, outcome.0);
      if outcome.1.Some? { var _ := CompleteAction(EndingOf(outcome.1.value.code), turn); }
    }

    method ApplyGlobalFault(turn: Turn)
      requires Valid()
      modifies this, ring, ring.slots
      ensures Valid() && Model() == GlobalFault(old(Model()), turn, ring.engine)
    {
      hide Conclude, Store;
      if !job.Idle? { var _ := CompleteAction(EndedFailed, turn); }
      if turn.queued.Some? { var _ := StoreResult(Result(turn.queued.value.id, OfQueued, EndedFailed)); }
    }

    method StartStopAction(id: nat, mask: set<nat>, cleanup: bool, turn: Turn)
      requires Valid()
      modifies this, ring, ring.slots
      ensures Valid() && Model() == StartStop(old(Model()), id, mask, cleanup, turn, ring.engine)
    {
      hide Store;
      if turn.refuses {
        var _ := StoreResult(Result(id, OfOther, EndedFailed));
      } else {
        job := Other(id, mask, true, cleanup);
      }
    }

    method CancelPoppable(turn: Turn)
      requires Valid()
      modifies ring, ring.slots
      ensures Valid()
      ensures Model() == CancelQueued(old(Model()), if |turn.poppable| <= COMMAND_CAPACITY + 1 then turn.poppable else turn.poppable[..COMMAND_CAPACITY + 1], ring.engine)
    {
      hide Store;
      var ids := if |turn.poppable| <= COMMAND_CAPACITY + 1 then turn.poppable else turn.poppable[..COMMAND_CAPACITY + 1];
      var k := 0;
      var waiting := ring.Count();
      assert ids[0..] == ids;
      while k < |ids| && waiting < CAPACITY
        invariant 0 <= k <= |ids| && Valid() && waiting == |ring.Model().waiting|
        invariant CancelQueued(Model(), ids[k..], ring.engine) == CancelQueued(old(Model()), ids, ring.engine)
      {
        var _ := StoreResult(Result(ids[k], OfQueued, EndedCancelled));
        assert ids[k..][1..] == ids[k + 1..];
        k := k + 1;
        waiting := ring.Count();
      }
    }

    /** Latches a stop intent when the mailbox, the full result store or a widened STOP raises one. */
    method LatchIntent(turn: Turn)
      requires Valid()
      modifies this
      ensures Valid() && Model() == Executor.Latched(old(Model()), turn)
    {
      hide Locked;
      var waiting := ring.Count();
      var bypass := if fallback.mask == {} && waiting >= CAPACITY then turn.waitingStops else {};
      var widen := if fallback.mask != {} then turn.waitingStops - fallback.mask else {};
      var intent := turn.mailboxStops + bypass + widen;
      if intent != {} {
        intent := intent + turn.waitingStops + debt.mask + job.Mask() + turn.queuedMask;
        fallback := Fallback(fallback.mask + intent, turn.now + ACTION_TIMEOUT_US);
        LockTargets(fallback.mask, turn.now);
      }
    }

    /** The STOP that bypasses the result store; true when it keeps the loop to itself. */
    method ServiceStopIntent(turn: Turn) returns (handled: bool)
      requires Valid() && turn.env.Sized()
      modifies this, ring, ring.slots
      ensures Valid()
      ensures var g := Executor.Latched(old(Model()), turn);
              handled == (g.fallback.mask != {}) && Model() == if handled then Bypass(g, turn, ring.engine) else g
    {
      hide Conclude, CancelQueued, Recovered, Executor.Latched;
      LatchIntent(turn);
      if fallback.mask == {} { return false; }
      var waiting := ring.Count();
      if !job.Idle? && waiting < CAPACITY { var _ := CompleteAction(EndedCancelled, turn); }
      CancelPoppable(turn);
      if job.Idle? && turn.queuesEmpty && turn.framesSent && (Recovered(debt, turn.env.snapshot) || turn.now >= fallback.deadlineUs) {
        fallback := fallback.(mask := {});
      }
      return true;
    }

    method ExpireWatchdog(turn: Turn)
      requires Valid()
      modifies this, ring, ring.slots
      ensures Valid() && Model() == WatchdogExpired(old(Model()), turn, ring.engine)
    {
      hide Conclude, Store;
      if !job.Idle? { var _ := CompleteAction(EndedCancelled, turn); }
      if turn.queued.Some? { var _ := StoreResult(Result(turn.queued.value.id, OfQueued, EndedFailed)); }
      var _ := StoreResult(Result(0, OfOther, EndedStopped));
    }

    method PopStopWhileBusy(turn: Turn) returns (report: Report)
      requires Valid() && !job.Idle? && turn.stop.Some?
      modifies this, ring, ring.slots
      ensures Valid() && (Model(), report) == StopActive(old(Model()), turn, ring.engine)
    {
      hide Conclude, StartStop;
      var mask := turn.stop.value.mask + debt.mask + job.Mask();
      var cleanup := debt.mask != {} || (job.Other? && job.cleanupAfterStop);
      var _ := CompleteAction(EndedCancelled, turn);
      StartStopAction(turn.stop.value.id, mask, cleanup, turn);
      return Report(None, Some(mask));
    }

    method PopStopWhileIdle(turn: Turn) returns (report: Report)
      requires Valid() && turn.stop.Some?
      modifies this, ring, ring.slots
      ensures Valid() && (Model(), report) == StopIdle(old(Model()), turn, ring.engine)
    {
      hide Store, StartStop;
      var cleanup := debt.mask != {};
      var mask := turn.stop.value.mask + debt.mask;
      if turn.queued.Some? {
        mask := mask + turn.queued.value.mask;
        var _ := StoreResult(Result(turn.queued.value.id, OfQueued, EndedCancelled));
      }
      assert mask == turn.stop.value.mask + debt.mask + if turn.queued.Some? then turn.queued.value.mask else {};
      StartStopAction(turn.stop.value.id, mask, cleanup, turn);
      return Report(None, Some(mask));
    }

    method Work(turn: Turn) returns (report: Report)
      requires Valid() && turn.Valid() && (job.Active? ==> job.action.Valid())
      modifies this, ring, ring.slots
      ensures Valid() && (Model(), report) == Worked(old(Model()), turn, ring.engine)
    {
      hide Conclude, Store, StartStop, StopActive, StopIdle, Settle, WatchdogExpired, Setup, Cleanup, FirstUnsafe, Started, Submitted;
      var waiting := ring.Count();
      report := QUIET;
      if job.Active? {
        var a := job.action;
        if GuardedStage(a.state).Some? && FirstUnsafe(a, turn.env, 0, turn.now).Some? {
          SettleAction(job.id, Cleanup(a, FirstUnsafe(a, turn.env, 0, turn.now).value, turn.env, turn.now), turn);
        } else if waiting < CAPACITY && turn.stop.Some? {
          report := PopStopWhileBusy(turn);
        } else {
          SettleAction(job.id, Setup(a, turn.env, turn.now), turn);
        }
      } else if turn.watchdog {
        ExpireWatchdog(turn);
      } else if job.Other? {
        if waiting < CAPACITY && turn.stop.Some? {
          report := PopStopWhileBusy(turn);
        } else if job.isStop && waiting >= CAPACITY && turn.widened.Some? {
          StartStopAction(job.id, turn.widened.value + job.mask, job.cleanupAfterStop, turn);
        } else if turn.otherEnds.Some? {
          var _ := CompleteAction(turn.otherEnds.value, turn);
        }
      } else if waiting < CAPACITY && turn.stop.Some? {
        report := PopStopWhileIdle(turn);
      } else if waiting == 0 && turn.next.Some? {
        report := StartNext(turn);
      }
    }

    method StartNext(turn: Turn) returns (report: Report)
      requires Valid() && turn.Valid() && turn.next.Some? && job.Idle?
      modifies this, ring, ring.slots
      ensures Valid()
      ensures (Model(), report) == match turn.next.value
              case NextOneShot(id, c) => (Settle(old(Model()), id, Started(c, turn.env, turn.now), turn, ring.engine), Report(Some(id), None))
              case NextOther(id, mask) =>
                (if turn.refuses then Store(old(Model()), Result(id, OfOther, EndedFailed), ring.engine)
                 else old(Model()).(job := Other(id, mask, false, false)), QUIET)
    {
      hide Store, Settle, Started;
      match turn.next.value
      case NextOneShot(id, c) =>
        SettleAction(id, Started(c, turn.env, turn.now), turn);
        return Report(Some(id), None);
      case NextOther(id, mask) =>
        if turn.refuses { var _ := StoreResult(Result(id, OfOther, EndedFailed)); }
        else { job := Other(id, mask, false, false); }
        return QUIET;
    }

    /** Whether something executes, or waits to. */
    method IsBusy(turn: Turn) returns (busy: bool)
      requires Valid()
      ensures busy == Busy(Model(), turn)
    {
      var waiting := ring.Count();
      return !job.Idle? || fallback.mask != {} || waiting != 0 || turn.Waiting() || turn.otherBusy;
    }

    method Service(turn: Turn) returns (report: Report)
      requires Valid() && turn.Valid() && (job.Active? ==> job.action.Valid())
      modifies this, ring, ring.slots
      ensures Valid() && (Model(), report) == ServiceLoop(old(Model()), turn, ring.engine)
    {
      hide Flushed, Recovered, Worked, Bypass, GlobalFault, Executor.Latched, Busy;
      var _ := ring.Flush();
      var busy := IsBusy(turn);
      if debt.mask != {} && !busy && Recovered(debt, turn.env.snapshot) { debt := debt.(mask := {}); }
      ghost var flushed := Model();
      if turn.transportFault {
        ApplyGlobalFault(turn);
        return QUIET;
      }
      LatchedIdle(flushed, turn);
      var handled := ServiceStopIntent(turn);
      if handled { return QUIET; }
      if turn.runtimeFault {
        ApplyGlobalFault(turn);
        return QUIET;
      }
      report := Work(turn);
    }
  }

  /** Without a pending intent latching leaves the loop as it was. */
  lemma LatchedIdle(e: Loop, turn: Turn)
    requires e.debt.Valid()
    ensures Executor.Latched(e, turn).fallback.mask == {} ==> Executor.Latched(e, turn) == e
  {
  }
}
