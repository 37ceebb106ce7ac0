/** Whole runs of the mapping transaction: arbitrary interleavings of admissions, received frames,
    service calls, STOP requests and queue pops, with arbitrary replies and times. */
module MappingRuns {
  import opened Common
  import opened Mapping

  datatype Op =
    | Start(requestId: nat, restore: bool, family: Family, at: nat, env: Surroundings)
    | Receive(frame: CanFrame, at: nat, decoding: Decoding)
    | Next(at: nat, platform: Platform)
    | StopRequest(at: nat)
    | LocalStop
    | PopDisable(packs: bool)
    | PopControlGroup(ready: bool)
    | StartCommand(isStopOrDisable: bool)
    | Learn(evidence: Evidence)

  datatype Result = Admitted | Refused | Consumed | Passed | Emitted(sent: Sent) | Popped | Begun | Silent

  /** One call of a public entry point. The firmware's other modules write the motor evidence. */
  function Exec(t: Txn, op: Op): (Txn, Result) {
    match op
    case Start(id, restore, family, at, env) =>
      if Admissible(t, id, restore, family, at, env) then (Started(t, id, restore, family, at), Admitted) else (t, Refused)
    case Receive(frame, at, d) =>
      var r := Received(t, frame, at, d); (r.0, if r.1 then Consumed else Passed)
    case Next(at, p) =>
      var r := Advanced(t, at, p); (r.0, Emitted(r.1))
    case StopRequest(at) => (t.Fail(1, at), Silent)
    case LocalStop => (t.Fail(1, t.phaseUs), Silent)
    case PopDisable(packs) =>
      if t.disablePending && packs then (t.(disablePending := false), Popped) else (t, Silent)
    case PopControlGroup(ready) => (t, if ready && !t.Locked() then Popped else Silent)
    case StartCommand(urgent) => (t, if t.Locked() && !urgent then Refused else Begun)
    case Learn(evidence) => (Learnt(t, evidence), Silent)
  }

  datatype Step = Step(op: Op, pre: Txn, result: Result, post: Txn)
  {
    predicate Valid() {
      (post, result) == Exec(pre, op)
    }

    predicate Admits() {
      op.Start? && result == Admitted
    }

    predicate Writes() {
      result.Emitted? && result.sent.WriteSent?
    }
  }

  ghost predicate IsRun(run: seq<Step>) {
    && (forall i | 0 <= i < |run| :: run[i].Valid())
    && (forall i | 0 <= i < |run| - 1 :: run[i].post == run[i + 1].pre)
    && (run != [] ==> exists evidence :: run[0].pre == Boot(evidence))
  }

  ghost predicate Reached(run: seq<Step>, t: Txn) {
    IsRun(run) && if run == [] then exists evidence :: t == Boot(evidence) else run[|run| - 1].post == t
  }

  // ----- The evidence chain -----

  /** How many milestones a live transaction has behind it. */
  function Rank(s: State): nat {
    match s
    case Idle => 0 case Failed => 0
    case Quiet => 1 case SourceWait => 2 case Write => 3 case Settle => 4 case TargetWait => 5
    case Drain => 6 case Discovery => 6 case Disable => 7 case Baseline => 8 case Done => 9
  }

  /** A frame sent on an empty receive queue, inside the three-second window. */
  predicate SentOnTime(plan: Plan, step: Step, sent: Sent) {
    && step.op.Next? && step.result == Emitted(sent)
    && plan.startedUs <= step.op.at < plan.startedUs + WINDOW_US
    && step.pre.evidence.rxBoundaryUs == step.op.at
  }

  /** A read reply of motor 7 about the planned register, at most a tenth of a second after the request. */
  predicate RepliedOnTime(plan: Plan, askedUs: nat, step: Step) {
    && step.op.Receive? && step.op.frame.IsReadOf(plan.register)
    && askedUs <= step.op.at < askedUs + REPLY_US
    && step.op.decoding.reply.Some? && step.op.decoding.reply.value.Finite?
  }

  function Value(step: Step): real
    requires step.op.Receive? && step.op.decoding.reply.Some? && step.op.decoding.reply.value.Finite?
  {
    step.op.decoding.reply.value.v
  }

  /** What the k-th milestone of a transaction is; `prev` is the step of the milestone before it. */
  predicate Milestone(plan: Plan, k: nat, prev: Step, step: Step) {
    match k
    case 0 => step.Admits() && step.post.plan == plan && step.post.state == Quiet
              && plan == PlanFor(step.op.requestId, step.op.restore, step.op.family, step.op.at, plan.recovery)
    case 1 => SentOnTime(plan, step, ReadSent(plan.register)) && step.op.at - plan.startedUs >= QUIET_US
    case 2 => prev.op.Next? && RepliedOnTime(plan, prev.op.at, step)
              && (Value(step) == Original(plan.family) || Value(step) == Changed(plan.family))
              && (Value(step) == plan.target ==> plan.recovery)
    case 3 => SentOnTime(plan, step, WriteSent(plan.register, plan.target))
    case 4 => prev.op.Next? && SentOnTime(plan, step, ReadSent(plan.register))
              && (step.op.at >= prev.op.at ==> step.op.at - prev.op.at >= SETTLE_US)
    case 5 => prev.op.Next? && RepliedOnTime(plan, prev.op.at, step) && Value(step) == plan.target
    case 6 => step.op.Next? && step.op.platform.discovery == Complete
              && step.pre.evidence.identity.Holds(plan.register, plan.target)
              && plan.startedUs <= step.op.at < plan.startedUs + WINDOW_US
    case 7 => SentOnTime(plan, step, DisableSent)
    case 8 => prev.op.Next? && step.op.Next? && step.pre.evidence.feedbackValid
              && prev.op.at <= step.pre.evidence.feedback.stampUs <= step.op.at < prev.op.at + REPLY_US
              && step.pre.evidence.feedback.Healthy(0.05)
              && plan.startedUs <= step.op.at < plan.startedUs + WINDOW_US
    case _ => false
  }

  /** `marks` lists, in order, where in the run the current transaction's milestones happened. */
  ghost predicate Chain(run: seq<Step>, plan: Plan, marks: seq<nat>) {
    && marks != []
    && (forall k | 0 <= k < |marks| :: marks[k] < |run|)
    && (forall k | 0 <= k < |marks| :: Milestone(plan, k, run[marks[if k == 0 then 0 else k - 1]], run[marks[k]]))
    && (forall k | 0 <= k < |marks| - 1 :: marks[k] < marks[k + 1])
    && (forall i | marks[0] <= i < |run| && run[i].Writes() :: 3 < |marks| && i == marks[3])
    && (forall i | marks[0] < i < |run| :: !run[i].Admits())
  }

  /** What a live record itself still recalls of the step that completed its last milestone. */
  predicate Recalls(t: Txn, last: Step) {
    match t.state
    case Quiet => last.op.Start? && t.phaseUs == t.plan.startedUs && t.source == SourceOf(t.plan.family, last.op.restore)
                  && t.plan.target == TargetOf(t.plan.family, last.op.restore)
    case SourceWait => last.op.Next? && t.phaseUs == last.op.at && t.source != t.plan.target
                       && (t.source == Original(t.plan.family) || t.source == Changed(t.plan.family))
                       && (t.plan.target == Original(t.plan.family) || t.plan.target == Changed(t.plan.family))
    case Settle => last.op.Next? && t.phaseUs == last.op.at
    case TargetWait => last.op.Next? && t.phaseUs == last.op.at
    case Baseline => last.op.Next? && t.phaseUs == last.op.at
    case _ => true
  }

  ghost predicate Remembers(run: seq<Step>, t: Txn, marks: seq<nat>)
    requires Chain(run, t.plan, marks)
  {
    Recalls(t, run[marks[|marks| - 1]])
  }

  predicate Alive(t: Txn) {
    t.state != Idle && t.state != Failed
  }

  /** Nothing but an admission brings a transaction to life, and no other call changes its plan. */
  lemma StaysAlive(step: Step)
    requires step.Valid() && !step.Admits() && Alive(step.post)
    ensures Alive(step.pre) && step.post.plan == step.pre.plan
    ensures Rank(step.post.state) == Rank(step.pre.state) || Rank(step.post.state) == Rank(step.pre.state) + 1
  {
    hide Feedback.Healthy, Identity.Holds, Admissible, DisabledEvidence, CanFrame.IsFeedback, Started, Recoverable;
  }

  lemma Unmoved(step: Step)
    requires step.Valid() && !step.Admits() && Alive(step.post) && Rank(step.post.state) == Rank(step.pre.state)
    ensures !step.Writes() && step.post.phaseUs == step.pre.phaseUs && step.post.source == step.pre.source
    ensures step.post.state == step.pre.state || (step.pre.state == Drain && step.post.state == Discovery)
  {
    hide Feedback.Healthy, Identity.Holds, Admissible, DisabledEvidence, CanFrame.IsFeedback, Started, Recoverable;
  }

  /** A call that completes a milestone is a service call, or the receipt of an accepted reply. */
  lemma Moved(step: Step)
    requires step.Valid() && !step.Admits() && Alive(step.post) && Rank(step.post.state) == Rank(step.pre.state) + 1
    ensures step.Writes() <==> step.pre.state == Write
    ensures step.pre.state == SourceWait || step.pre.state == TargetWait ==>
              step.op.Receive? && step.op.frame.IsReadOf(step.pre.plan.register)
              && ReplyAccepted(step.pre, step.op.frame, step.op.at, step.op.decoding)
    ensures step.pre.state != SourceWait && step.pre.state != TargetWait ==>
              step.op.Next? && step.pre.InWindow(step.op.at)
  {
    hide Feedback.Healthy, Identity.Holds, Admissible, DisabledEvidence, CanFrame.IsFeedback, Started, Recoverable;
  }

  lemma Carry(before: seq<Step>, step: Step, marks: seq<nat>)
    requires step.Valid() && !step.Admits() && !step.Writes() && step.post.plan == step.pre.plan
    requires Chain(before, step.pre.plan, marks) && Remembers(before, step.pre, marks)
    requires step.post.phaseUs == step.pre.phaseUs && step.post.source == step.pre.source
    requires step.post.state == step.pre.state || (step.pre.state == Drain && step.post.state == Discovery)
    ensures Chain(before + [step], step.post.plan, marks) && Remembers(before + [step], step.post, marks)
  {
    hide Milestone, Exec;
    var run := before + [step];
    assert forall i | 0 <= i < |before| :: run[i] == before[i];
  }

  lemma Extend(before: seq<Step>, step: Step, marks: seq<nat>)
    requires step.Valid() && !step.Admits() && Alive(step.pre) && Alive(step.post) && step.post.plan == step.pre.plan
    requires Chain(before, step.pre.plan, marks) && Remembers(before, step.pre, marks) && |marks| == Rank(step.pre.state)
    requires Rank(step.post.state) == Rank(step.pre.state) + 1
    ensures var run, all := before + [step], marks + [|before|];
            Chain(run, step.post.plan, all) && Remembers(run, step.post, all)
  {
    var run, all := before + [step], marks + [|before|];
    var prev := before[marks[|marks| - 1]];
    Moved(step);
    Reach(step, prev);
    hide Milestone, Exec;
    assert forall i | 0 <= i < |before| :: run[i] == before[i];
    assert forall k | 0 <= k < |marks| :: all[k] == marks[k];
  }

  /** With what the record recalls, the moving call is the next milestone, and is recalled in turn. */
  lemma Reach(step: Step, prev: Step)
    requires step.Valid() && !step.Admits() && Alive(step.pre) && Alive(step.post)
    requires Rank(step.post.state) == Rank(step.pre.state) + 1 && Recalls(step.pre, prev)
    ensures Milestone(step.post.plan, Rank(step.pre.state), prev, step) && Recalls(step.post, step)
  {
    hide Feedback.Healthy, Identity.Holds, Admissible, DisabledEvidence, CanFrame.IsFeedback, Started, Recoverable;
    Moved(step);
    StaysAlive(step);
    if step.pre.state == Baseline { Baselined(step); }
    UnknownHoldsNothing(step.pre.plan);
  }

  lemma UnknownHoldsNothing(plan: Plan)
    ensures !UNKNOWN.Holds(plan.register, plan.target)
  {
  }

  lemma Baselined(step: Step)
    requires step.Valid() && step.op.Next? && step.pre.state == Baseline && step.post.state == Done
    ensures step.pre.evidence.feedbackValid && step.pre.evidence.feedback.Healthy(0.05)
    ensures step.pre.phaseUs <= step.pre.evidence.feedback.stampUs <= step.op.at < step.pre.phaseUs + REPLY_US
  {
  }

  /** Every live transaction carries exactly the milestones its state stands for. */
  lemma {:induction false} ChainExists(run: seq<Step>, t: Txn) returns (marks: seq<nat>)
    requires Reached(run, t) && t.state != Idle && t.state != Failed
    ensures Chain(run, t.plan, marks) && |marks| == Rank(t.state) && Remembers(run, t, marks)
  {
    assert run != [];
    var before, step := run[..|run| - 1], run[|run| - 1];
    assert run == before + [step];
    assert Reached(before, step.pre) by {
      if before == [] { var e :| run[0].pre == Boot(e); assert step.pre == Boot(e); } else { assert before[0] == run[0]; }
    }
    if step.Admits() {
      marks := [|run| - 1];
    } else {
      StaysAlive(step);
      var earlier := ChainExists(before, step.pre);
      if Rank(step.post.state) == Rank(step.pre.state) {
        marks := earlier;
        Unmoved(step);
        Carry(before, step, earlier);
      } else {
        marks := earlier + [|run| - 1];
        Extend(before, step, earlier);
      }
    }
  }

  /** A transaction is DONE only through the full evidence chain: start, read request, accepted
      source read-back, exactly one write frame, read request, read-back of the target,
      rediscovery of the target identity, DISABLE, and disabled feedback stamped after it. */
  lemma DoneNeedsEvidence(run: seq<Step>, t: Txn)
    requires Reached(run, t) && t.state == Done
    ensures exists marks :: |marks| == 9 && Chain(run, t.plan, marks)
  {
    var marks := ChainExists(run, t);
  }

  function At(op: Op): nat
    requires op.Start? || op.Receive? || op.Next? || op.StopRequest?
  {
    op.at
  }

  predicate Timed(op: Op) {
    op.Start? || op.Receive? || op.Next? || op.StopRequest?
  }

  /** Call times never decrease. */
  ghost predicate Clocked(run: seq<Step>) {
    forall i, j | 0 <= i < j < |run| && Timed(run[i].op) && Timed(run[j].op) :: At(run[i].op) <= At(run[j].op)
  }

  lemma MilestoneTimed(plan: Plan, k: nat, prev: Step, step: Step)
    requires Milestone(plan, k, prev, step)
    ensures Timed(step.op)
  {
  }

  /** With a clock that does not run backwards, all nine milestones fall within three seconds of
      the admission, and the quiet, settle and reply intervals between them are kept. */
  lemma DoneWithinWindow(run: seq<Step>, t: Txn, marks: seq<nat>)
    requires Chain(run, t.plan, marks) && |marks| == 9 && Clocked(run)
    ensures forall k | 0 <= k < 9 :: Timed(run[marks[k]].op)
    ensures forall k | 0 <= k < 9 :: t.plan.startedUs <= At(run[marks[k]].op) < t.plan.startedUs + WINDOW_US
    ensures At(run[marks[1]].op) - At(run[marks[0]].op) >= QUIET_US
    ensures At(run[marks[4]].op) - At(run[marks[3]].op) >= SETTLE_US
  {
    forall k | 0 <= k < 9
      ensures Timed(run[marks[k]].op) && marks[0] <= marks[k] <= marks[8]
    {
      MilestoneTimed(t.plan, k, run[marks[if k == 0 then 0 else k - 1]], run[marks[k]]);
      assert marks[0] < marks[1] < marks[2] < marks[3] < marks[4] < marks[5] < marks[6] < marks[7] < marks[8];
    }
    assert Milestone(t.plan, 0, run[marks[0]], run[marks[0]]);
    assert Milestone(t.plan, 1, run[marks[0]], run[marks[1]]);
    assert Milestone(t.plan, 4, run[marks[3]], run[marks[4]]);
    assert Milestone(t.plan, 8, run[marks[7]], run[marks[8]]);
    assert Milestone(t.plan, 3, run[marks[2]], run[marks[3]]);
  }

  // ----- Acknowledgements -----

  /** The record after a sequence of calls. */
  function Play(t: Txn, ops: seq<Op>): Txn
    decreases |ops|
  {
    if ops == [] then t else Play(Exec(t, ops[0]).0, ops[1..])
  }

  predicate IsAcknowledgement(op: Op) {
    op.Receive? && op.frame.IsParameter() && op.frame.data[2] == 0x55
  }

  function WithoutAcknowledgements(ops: seq<Op>): seq<Op> {
    if ops == [] then []
    else (if IsAcknowledgement(ops[0]) then [] else [ops[0]]) + WithoutAcknowledgements(ops[1..])
  }

  lemma AcknowledgementIsNoise(t: Txn, op: Op)
    requires IsAcknowledgement(op)
    ensures Exec(t, op).0 == t
  {
  }

  /** However many write acknowledgements arrive and whatever they say, the record ends where it
      would have ended without any: an acknowledgement never stands in for a read-back. */
  lemma {:induction false} AcknowledgementsChangeNothing(t: Txn, ops: seq<Op>)
    ensures Play(t, ops) == Play(t, WithoutAcknowledgements(ops))
    decreases |ops|
  {
    hide Exec;
    if ops != [] {
      var u, rest := Exec(t, ops[0]).0, WithoutAcknowledgements(ops[1..]);
      AcknowledgementsChangeNothing(u, ops[1..]);
      if IsAcknowledgement(ops[0]) {
        AcknowledgementIsNoise(t, ops[0]);
        assert WithoutAcknowledgements(ops) == [] + rest == rest;
      } else {
        assert ([ops[0]] + rest)[1..] == rest;
      }
    }
  }

  // ----- Admission over a whole run -----

  lemma {:induction false} NeverIdleAgain(run: seq<Step>, i: nat, j: nat)
    requires IsRun(run) && i < j < |run| && run[i].Admits()
    ensures run[j].pre.state != Idle && run[j].post.state != Idle
  {
    if j > i + 1 { NeverIdleAgain(run, i, j - 1); }
    assert run[j - 1].post == run[j].pre;
    hide Feedback.Healthy, Identity.Holds, DisabledEvidence, CanFrame.IsFeedback;
    NotBackToIdle(run[j]);
  }

  lemma NotBackToIdle(step: Step)
    requires step.Valid() && step.pre.state != Idle
    ensures step.post.state != Idle
  {
    hide Feedback.Healthy, Identity.Holds, DisabledEvidence, CanFrame.IsFeedback, Admissible;
  }

  /** A forward change is the first admission of a boot: nothing was admitted before it, so no run
      admits two of them. */
  lemma ForwardAtMostOnce(run: seq<Step>, i: nat, j: nat)
    requires IsRun(run) && i < j < |run| && run[i].Admits() && run[j].Admits()
    ensures run[j].op.restore
  {
    NeverIdleAgain(run, i, j);
    if !run[j].op.restore { ForwardOnlyFromIdle(run[j]); }
  }

  lemma ForwardOnlyFromIdle(step: Step)
    requires step.Valid() && step.Admits() && !step.op.restore
    ensures step.pre.state == Idle
  {
    hide Feedback.Healthy, Identity.Holds;
  }

  // ----- The failure lock -----

  /** The step that failed, and whether its DISABLE left the queue and the motor was seen disabled. */
  ghost predicate FailedAt(run: seq<Step>, f: nat, t: Txn) {
    && f < |run| && run[f].pre.state != Failed && run[f].post.state == Failed
    && (Timed(run[f].op) ==> t.phaseUs >= At(run[f].op))
    && (forall i | f < i < |run| :: run[i].pre.state == Failed && run[i].post.state == Failed && !run[i].Admits())
    && t.reason == run[f].post.reason && t.plan == run[f].post.plan && t.phaseUs == run[f].post.phaseUs
    && (!t.disablePending ==> exists p | f < p < |run| :: run[p].op.PopDisable? && run[p].result == Popped)
    && (t.disabledObservedUs != 0 ==> exists q | f < q < |run| :: SeenDisabled(run[q], run[f].post, t.disabledObservedUs))
  }

  /** Feedback of motor 7 received at a time, disabled and at rest, no earlier than the failure. */
  predicate SeenDisabled(step: Step, failure: Txn, at: nat) {
    && step.op.Receive? && step.op.at == at && step.op.frame.IsFeedback()
    && step.op.decoding.feedback.Some? && step.op.decoding.feedback.value.Resting(0.05)
    && at >= failure.phaseUs && at >= failure.plan.startedUs
  }

  /** While FAILED, a call either keeps reason, plan and phase, or is an admission. */
  lemma FailureKept(step: Step)
    requires step.Valid() && step.pre.state == Failed && !step.Admits()
    ensures step.post.state == Failed && step.post.reason == step.pre.reason
    ensures step.post.plan == step.pre.plan && step.post.phaseUs == step.pre.phaseUs
    ensures step.post.disablePending != step.pre.disablePending ==> step.op.PopDisable? && step.result == Popped
    ensures step.post.disabledObservedUs == step.pre.disabledObservedUs || step.post.disabledObservedUs == 0
            || SeenDisabled(step, step.pre, step.post.disabledObservedUs)
  {
    hide Feedback.Healthy, Feedback.Resting, Identity.Holds, Admissible, Started;
  }

  lemma LearnsOnly(t: Txn, e: Evidence)
    ensures Learnt(t, e) == t.(evidence := Learnt(t, e).evidence)
  {
  }

  lemma Failing(step: Step)
    requires step.Valid() && step.pre.state != Failed && step.post.state == Failed
    ensures step.post.disablePending && step.post.disabledObservedUs == 0 && step.post.plan == step.pre.plan
    ensures step.pre.Locked()
    ensures Timed(step.op) ==> step.post.phaseUs >= At(step.op)
  {
    hide Feedback.Healthy, Feedback.Resting, Identity.Holds, Admissible, DisabledEvidence, ReplyAccepted, Learnt,
         Recoverable, CanFrame.IsFeedback, CanFrame.IsParameter;
    if step.op.Learn? { LearnsOnly(step.pre, step.op.evidence); }
  }

  /** Every failed state remembers its one failing call: first reason, plan and time are kept. */
  lemma {:induction false} FailureRemembered(run: seq<Step>, t: Txn) returns (f: nat)
    requires Reached(run, t) && t.state == Failed
    ensures FailedAt(run, f, t)
  {
    assert run != [];
    var before, step := run[..|run| - 1], run[|run| - 1];
    assert run == before + [step];
    assert Reached(before, step.pre) by {
      if before == [] { var e :| run[0].pre == Boot(e); assert step.pre == Boot(e); } else { assert before[0] == run[0]; }
    }
    if step.pre.state != Failed {
      Failing(step);
      f := |run| - 1;
    } else {
      f := FailureRemembered(before, step.pre);
      FailureKept(step);
      Persist(before, step, f);
    }
  }

  lemma Persist(before: seq<Step>, step: Step, f: nat)
    requires step.Valid() && step.pre.state == Failed && step.post.state == Failed && !step.Admits()
    requires FailedAt(before, f, step.pre)
    requires step.post.reason == step.pre.reason && step.post.plan == step.pre.plan && step.post.phaseUs == step.pre.phaseUs
    requires step.post.disablePending != step.pre.disablePending ==> step.op.PopDisable? && step.result == Popped
    requires step.post.disabledObservedUs == step.pre.disabledObservedUs || step.post.disabledObservedUs == 0
             || SeenDisabled(step, step.pre, step.post.disabledObservedUs)
    ensures FailedAt(before + [step], f, step.post)
  {
    hide Exec, SeenDisabled;
    var run := before + [step];
    assert run[|before|] == step;
    assert forall i | 0 <= i < |before| :: run[i] == before[i];
    if !step.post.disablePending && !step.pre.disablePending {
      var p :| f < p < |before| && before[p].op.PopDisable? && before[p].result == Popped;
      assert run[p] == before[p];
    }
    if step.post.disabledObservedUs != 0 {
      if step.post.disabledObservedUs == step.pre.disabledObservedUs {
        var q :| f < q < |before| && SeenDisabled(before[q], before[f].post, step.pre.disabledObservedUs);
        assert run[q] == before[q];
      } else {
        SeenSame(step, step.pre, before[f].post);
        assert run[|before|] == step;
      }
    }
  }

  lemma SeenSame(step: Step, a: Txn, b: Txn)
    requires SeenDisabled(step, a, step.post.disabledObservedUs) && a.phaseUs == b.phaseUs && a.plan == b.plan
    ensures SeenDisabled(step, b, step.post.disabledObservedUs)
  {
  }

  /** The lock of a failed transaction opens in one way only: the restore of its own register and
      family, after its DISABLE was popped and disabled feedback no older than the failure. */
  lemma LockOpensOnlyByRestore(run: seq<Step>, step: Step) returns (f: nat)
    requires Reached(run, step.pre) && step.Valid() && step.pre.state == Failed
    requires step.post.state != Failed || step.Admits()
    ensures FailedAt(run, f, step.pre)
    ensures step.Admits() && step.op.restore && step.op.family == run[f].post.plan.family
    ensures Register(step.op.family) == run[f].post.plan.register
    ensures exists p | f < p < |run| :: run[p].op.PopDisable? && run[p].result == Popped
    ensures exists q | f < q < |run| ::
              && SeenDisabled(run[q], run[f].post, step.pre.disabledObservedUs)
              && step.op.at - REPLY_US <= run[q].op.at <= step.op.at
  {
    f := FailureRemembered(run, step.pre);
    if !step.Admits() { FailureKept(step); }
    assert RecoveryAllowed(step.pre, step.op.family, step.op.at);
  }

  // ----- What the lock withholds -----

  /** A step that sets nothing in motion: no control group leaves the queue, only STOP or DISABLE
      begins, and normal feedback only passes as the new disabled baseline. */
  predicate Withheld(step: Step) {
    && (step.op.PopControlGroup? ==> step.result != Popped)
    && (step.op.StartCommand? && step.result == Begun ==> step.op.isStopOrDisable)
    && (step.op.Receive? && step.op.frame.IsFeedback() && !step.op.frame.IsParameter() && step.result == Passed ==>
          step.pre.state == Baseline && step.op.frame.data[0] / 16 == DRIVER_DISABLED)
  }

  lemma LockedStep(step: Step)
    requires step.Valid() && step.pre.Locked()
    ensures Withheld(step) && (step.post.Locked() || step.post.state == Done)
    ensures step.Admits() ==> step.pre.state == Failed && step.op.restore && step.op.family == step.pre.plan.family
  {
    hide Feedback.Healthy, Feedback.Resting, Identity.Holds, DisabledEvidence, ReplyAccepted, Recoverable, SurroundingsQuiet;
  }

  /** From an admission, through any failure and restore, until the transaction is DONE, nothing is
      set in motion. */
  lemma {:induction false} LockedStretch(run: seq<Step>, a: nat, k: nat)
    requires IsRun(run) && a < k < |run| && run[a].post.Locked() && forall i | a < i < k :: run[i].post.state != Done
    ensures run[k].pre.Locked() && Withheld(run[k])
  {
    hide Exec, Withheld;
    if a + 1 < k {
      LockedStretch(run, a, k - 1);
      LockedStep(run[k - 1]);
    }
    assert run[k - 1].post == run[k].pre;
    LockedStep(run[k]);
  }

  lemma DeafStep(step: Step)
    requires step.Valid() && step.pre.state == Failed && !step.pre.evidence.feedbackValid && !step.Admits()
    ensures step.post.state == Failed && !step.post.evidence.feedbackValid
    ensures step.op.Receive? && step.op.frame.IsFeedback() ==> step.result == Consumed
  {
    hide Feedback.Healthy, Feedback.Resting, Identity.Holds, DisabledEvidence, ReplyAccepted, Recoverable, SurroundingsQuiet;
  }

  lemma FailureDeafens(step: Step)
    requires step.Valid() && step.pre.state != Failed && step.post.state == Failed
    ensures !step.post.evidence.feedbackValid
  {
    hide Feedback.Healthy, Feedback.Resting, Identity.Holds, DisabledEvidence, ReplyAccepted, Recoverable, SurroundingsQuiet;
  }

  /** From a failing step to the restore that ends the lock: no control group is popped, only STOP or
      DISABLE begins, and no normal feedback of the motor reaches the runtime; the step that ends
      the stretch is the restore of the failed family. */
  lemma {:induction false} FailedStretch(run: seq<Step>, f: nat, k: nat)
    requires IsRun(run) && f < k < |run| && run[f].pre.state != Failed && run[f].post.state == Failed
    requires forall i | f < i < k :: !run[i].Admits()
    ensures run[k].pre.state == Failed && !run[k].pre.evidence.feedbackValid && Withheld(run[k])
    ensures run[k].pre.plan == run[f].post.plan
    ensures run[k].op.Receive? && run[k].op.frame.IsFeedback() ==> run[k].result == Consumed
    ensures run[k].Admits() ==> run[k].op.restore && run[k].op.family == run[f].post.plan.family
  {
    hide Exec, Withheld;
    if f + 1 == k {
      FailureDeafens(run[f]);
    } else {
      FailedStretch(run, f, k - 1);
      DeafStep(run[k - 1]);
      FailureKept(run[k - 1]);
    }
    assert run[k - 1].post == run[k].pre;
    LockedStep(run[k]);
    if run[k].Admits() { assert !run[k].op.Receive?; } else { DeafStep(run[k]); }
  }

}
