/** The service loop of App/aethor_app.c around one active action: result storage, global faults,
    STOP handling and the debt of motors whose DISABLE is not confirmed. One-shot actions are
    modelled in full; any other action only by its motor mask and by when it ends. */
module Executor {
  import opened Common
  import opened DeferredResults
  import opened OneShot

  /** Terminal of a one-shot that was begun, of a command cancelled in the queue, or of other work. */
  datatype Source = OfOneShot | OfQueued | OfOther

  datatype Ending = EndedCompleted | EndedFailed | EndedCancelled | EndedStopped

  datatype Result = Result(id: nat, source: Source, code: Ending)

  datatype Job =
    | Idle
    | Active(id: nat, action: Action)
    | Other(id: nat, mask: set<nat>, isStop: bool, cleanupAfterStop: bool)
  {
    function Mask(): set<nat> {
      match this case Idle => {} case Active(_, a) => a.command.mask case Other(_, m, _, _) => m
    }
  }

  /** Motors whose disable is not confirmed yet, and when each was last locked. */
  datatype Debt = Debt(mask: set<nat>, afterUs: seq<nat>)
  {
    predicate Valid() {
      |afterUs| == JOINTS
    }
  }

  /** A STOP that bypasses the full result store. */
  datatype Fallback = Fallback(mask: set<nat>, deadlineUs: nat)

  datatype Loop = Loop(job: Job, queue: Queue<Result>, debt: Debt, fallback: Fallback)

  datatype Stop = Stop(id: nat, mask: set<nat>)

  datatype Queued = Queued(id: nat, mask: set<nat>)

  datatype Next = NextOneShot(id: nat, command: Command) | NextOther(id: nat, mask: set<nat>)

  /** What the engine, the mailbox, the motors and the clock present to one service call. Commands and
      STOPs are published by a task the call is not interrupted by, so what it pops waited when it
      began; `otherBusy` stands for the busy conditions of subsystems outside this model. */
  datatype Turn = Turn(
    now: nat, env: Env, otherBusy: bool, transportFault: bool, runtimeFault: bool, watchdog: bool,
    mailboxStops: set<nat>, waitingStops: set<nat>, queuedMask: set<nat>, queuesEmpty: bool, framesSent: bool, poppable: seq<nat>,
    stop: Option<Stop>, queued: Option<Queued>, widened: Option<set<nat>>, refuses: bool, confirmed: bool,
    otherEnds: Option<Ending>, next: Option<Next>)
  {
    predicate Valid() {
      env.Sized() && (next.Some? && next.value.NextOneShot? ==> next.value.command.Valid())
    }

    /** A STOP intent, a STOP or a command was published before the call. */
    predicate Waiting() {
      || mailboxStops != {} || stop.Some? || widened.Some? || queued.Some? || next.Some? || poppable != []
      || queuedMask != {} || !queuesEmpty
    }
  }

  /** What a service call did: the one-shot it began, and the mask of a STOP it popped. */
  datatype Report = Report(begun: Option<nat>, stopped: Option<set<nat>>)

  const QUIET := Report(None, None)
  const COMMAND_CAPACITY: nat := 8

  // ----- Results -----

  function Store(e: Loop, r: Result, engine: Engine): Loop {
    e.(queue := Submitted(e.queue, r, engine).0)
  }

  function EndingOf(c: Code): Ending {
    match c case Completed => EndedCompleted case Failed => EndedFailed case Cancelled => EndedCancelled
  }

  function Locked(d: Debt, mask: set<nat>, now: nat): Debt
    requires d.Valid()
  {
    Debt(d.mask + mask, seq(JOINTS, j requires 0 <= j < JOINTS => if j in mask then now else d.afterUs[j]))
  }

  /** Ends the active action once its terminal is stored; without storage it stays active. A failed
      cleanup STOP that is not confirmed disabled locks its motors. */
  function Conclude(e: Loop, code: Ending, turn: Turn, engine: Engine): Loop
    requires !e.job.Idle? && e.debt.Valid()
  {
    var r := Result(e.job.id, if e.job.Active? then OfOneShot else OfOther, code);
    var (queue, stored) := Submitted(e.queue, r, engine);
    if !stored then e.(queue := queue)
    else
      var locks := code == EndedFailed && e.job.Other? && e.job.cleanupAfterStop && !turn.confirmed;
      e.(queue := queue, job := Idle, debt := if locks then Locked(e.debt, e.job.mask, turn.now) else e.debt)
  }

  function Settle(e: Loop, id: nat, outcome: (Action, Option<Terminal>), turn: Turn, engine: Engine): Loop
    requires e.debt.Valid()
  {
    var held := e.(job := Active(id, outcome.0));
    match outcome.1
    case None => held
    case Some(t) => Conclude(held, EndingOf(t.code), turn, engine)
  }

  // ----- Global faults -----

  /** Transport and runtime faults fail the active action and the motion still queued. */
  function GlobalFault(e: Loop, turn: Turn, engine: Engine): Loop
    requires e.debt.Valid()
  {
    var f := if e.job.Idle? then e else Conclude(e, EndedFailed, turn, engine);
    if turn.queued.Some? then Store(f, Result(turn.queued.value.id, OfQueued, EndedFailed), engine) else f
  }

  // ----- STOP -----

  /** Starts a STOP, or reports at once that none of its frames could be built. */
  function StartStop(e: Loop, id: nat, mask: set<nat>, cleanup: bool, turn: Turn, engine: Engine): Loop {
    if turn.refuses then Store(e, Result(id, OfOther, EndedFailed), engine) else e.(job := Other(id, mask, true, cleanup))
  }

  /** A popped STOP covers the unconfirmed motors and the action it cancels. */
  function StopActive(e: Loop, turn: Turn, engine: Engine): (Loop, Report)
    requires e.debt.Valid() && !e.job.Idle? && turn.stop.Some?
  {
    var mask := turn.stop.value.mask + e.debt.mask + e.job.Mask();
    var cleanup := e.debt.mask != {} || (e.job.Other? && e.job.cleanupAfterStop);
    (StartStop(Conclude(e, EndedCancelled, turn, engine), turn.stop.value.id, mask, cleanup, turn, engine), Report(None, Some(mask)))
  }

  function StopIdle(e: Loop, turn: Turn, engine: Engine): (Loop, Report)
    requires turn.stop.Some?
  {
    var queuedMask := if turn.queued.Some? then turn.queued.value.mask else {};
    var mask := turn.stop.value.mask + e.debt.mask + queuedMask;
    var f := if turn.queued.Some? then Store(e, Result(turn.queued.value.id, OfQueued, EndedCancelled), engine) else e;
    (StartStop(f, turn.stop.value.id, mask, e.debt.mask != {}, turn, engine), Report(None, Some(mask)))
  }

  /** The motors a stop intent must disable, when there is one. */
  function Intent(e: Loop, turn: Turn): set<nat> {
    var bypass := if e.fallback.mask == {} && !HasRoom(e.queue) then turn.waitingStops else {};
    var widen := if e.fallback.mask != {} then turn.waitingStops - e.fallback.mask else {};
    var intent := turn.mailboxStops + bypass + widen;
    if intent == {} then {} else intent + turn.waitingStops + e.debt.mask + e.job.Mask() + turn.queuedMask
  }

  function Latched(e: Loop, turn: Turn): Loop
    requires e.debt.Valid()
  {
    var intent := Intent(e, turn);
    if intent == {} then e
    else
      var mask := e.fallback.mask + intent;
      e.(fallback := Fallback(mask, turn.now + ACTION_TIMEOUT_US), debt := Locked(e.debt, mask, turn.now))
  }

  function CancelQueued(e: Loop, ids: seq<nat>, engine: Engine): (f: Loop)
    ensures f == e.(queue := f.queue)
    decreases |ids|
  {
    if ids == [] || !HasRoom(e.queue) then e
    else CancelQueued(Store(e, Result(ids[0], OfQueued, EndedCancelled), engine), ids[1..], engine)
  }

  /** Every motor in debt reported again after its lock: disabled, fault-free and nearly still. */
  predicate Recovered(d: Debt, s: Snapshot)
    requires d.Valid() && s.Sized()
  {
    d.mask <= s.valid && forall j | 0 <= j < JOINTS && j in d.mask ::
      s.joints[j].stampUs > d.afterUs[j] && s.joints[j].driver == Disabled && !s.joints[j].faulty && Abs(s.joints[j].velocity) <= STILL
  }

  function Bypass(e: Loop, turn: Turn, engine: Engine): Loop
    requires e.debt.Valid() && turn.env.Sized()
  {
    var f := if !e.job.Idle? && HasRoom(e.queue) then Conclude(e, EndedCancelled, turn, engine) else e;
    var g := CancelQueued(f, if |turn.poppable| <= COMMAND_CAPACITY + 1 then turn.poppable else turn.poppable[..COMMAND_CAPACITY + 1], engine);
    if g.job.Idle? && turn.queuesEmpty && turn.framesSent
       && (Recovered(g.debt, turn.env.snapshot) || turn.now >= g.fallback.deadlineUs)
    then g.(fallback := g.fallback.(mask := {})) else g
  }

  // ----- One service call -----

  /** An action, a STOP that bypasses the store, or a result still to be delivered. */
  predicate Executing(e: Loop) {
    !e.job.Idle? || e.fallback.mask != {} || e.queue.waiting != []
  }

  predicate Busy(e: Loop, turn: Turn) {
    Executing(e) || turn.Waiting() || turn.otherBusy
  }

  /** Health service clears the debt on full evidence while nothing executes or waits. */
  function Health(e: Loop, turn: Turn): Loop
    requires e.debt.Valid() && turn.env.Sized()
  {
    if e.debt.mask != {} && !Busy(e, turn) && Recovered(e.debt, turn.env.snapshot) then e.(debt := e.debt.(mask := {})) else e
  }

  function WatchdogExpired(e: Loop, turn: Turn, engine: Engine): Loop
    requires e.debt.Valid()
  {
    var f := if e.job.Idle? then e else Conclude(e, EndedCancelled, turn, engine);
    var g := if turn.queued.Some? then Store(f, Result(turn.queued.value.id, OfQueued, EndedFailed), engine) else f;
    Store(g, Result(0, OfOther, EndedStopped), engine)
  }

  function WorkActive(e: Loop, turn: Turn, engine: Engine): (Loop, Report)
    requires e.debt.Valid() && turn.env.Sized() && e.job.Active? && e.job.action.Valid()
  {
    var a := e.job.action;
    if GuardedStage(a.state).Some? && FirstUnsafe(a, turn.env, 0, turn.now).Some? then
      (Settle(e, e.job.id, Cleanup(a, FirstUnsafe(a, turn.env, 0, turn.now).value, turn.env, turn.now), turn, engine), QUIET)
    else if HasRoom(e.queue) && turn.stop.Some? then StopActive(e, turn, engine)
    else (Settle(e, e.job.id, Setup(a, turn.env, turn.now), turn, engine), QUIET)
  }

  function WorkOther(e: Loop, turn: Turn, engine: Engine): (Loop, Report)
    requires e.debt.Valid() && e.job.Other?
  {
    if turn.watchdog then (WatchdogExpired(e, turn, engine), QUIET)
    else if HasRoom(e.queue) && turn.stop.Some? then StopActive(e, turn, engine)
    else if e.job.isStop && !HasRoom(e.queue) && turn.widened.Some? then
      (StartStop(e, e.job.id, turn.widened.value + e.job.mask, e.job.cleanupAfterStop, turn, engine), QUIET)
    else if turn.otherEnds.Some? then (Conclude(e, turn.otherEnds.value, turn, engine), QUIET)
    else (e, QUIET)
  }

  function WorkIdle(e: Loop, turn: Turn, engine: Engine): (Loop, Report)
    requires e.debt.Valid() && turn.env.Sized() && turn.Valid() && e.job.Idle?
  {
    if turn.watchdog then (WatchdogExpired(e, turn, engine), QUIET)
    else if HasRoom(e.queue) && turn.stop.Some? then StopIdle(e, turn, engine)
    else if e.queue.waiting != [] || turn.next.None? then (e, QUIET)
    else match turn.next.value
      case NextOneShot(id, c) => (Settle(e, id, Started(c, turn.env, turn.now), turn, engine), Report(Some(id), None))
      case NextOther(id, mask) =>
        (if turn.refuses then Store(e, Result(id, OfOther, EndedFailed), engine) else e.(job := Other(id, mask, false, false)), QUIET)
  }

  function Worked(e: Loop, turn: Turn, engine: Engine): (Loop, Report)
    requires e.debt.Valid() && turn.Valid() && (e.job.Active? ==> e.job.action.Valid())
  {
    match e.job
    case Active(_, _) => WorkActive(e, turn, engine)
    case Other(_, _, _, _) => WorkOther(e, turn, engine)
    case Idle => WorkIdle(e, turn, engine)
  }

  function ServiceLoop(e: Loop, turn: Turn, engine: Engine): (Loop, Report)
    requires e.debt.Valid() && turn.Valid() && (e.job.Active? ==> e.job.action.Valid())
  {
    var f := Health(e.(queue := Flushed(e.queue, engine)), turn);
    if turn.transportFault then (GlobalFault(f, turn, engine), QUIET)
    else
      var g := Latched(f, turn);
      if g.fallback.mask != {} then (Bypass(g, turn, engine), QUIET)
      else if turn.runtimeFault then (GlobalFault(f, turn, engine), QUIET)
      else Worked(f, turn, engine)
  }
}
