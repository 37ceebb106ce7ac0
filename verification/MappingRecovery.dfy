/** Which states of the mapping transaction can still complete. Every state can, except a failure
    whose retained identity no restore accepts: beginning a discovery forgets the identity, and while
    FAILED nothing learns it again. */
module MappingRecovery {
  import opened Common
  import opened Mapping
  import opened MappingRuns

  lemma {:induction false} PlayTwice(t: Txn, a: seq<Op>, b: seq<Op>)
    ensures Play(t, a + b) == Play(Play(t, a), b)
    decreases |a|
  {
    hide Exec;
    if a == [] {
      assert a + b == b;
    } else {
      assert (a + b)[1..] == a[1..] + b;
      PlayTwice(Exec(t, a[0]).0, a[1..], b);
    }
  }

  // ----- A cooperative motor -----

  const HEALTHY := Platform(true, true, true, true, Complete)
  const SEARCHING := Platform(true, true, true, true, FrameReady)

  function AtRest(at: nat): Feedback {
    Feedback(at, DRIVER_DISABLED, 0, Finite(0.0), Finite(0.0), Finite(0.0), Finite(20.0), Finite(20.0))
  }

  /** The identity of the motor while the register of a family holds a range. */
  function IdentityWith(family: Family, range: real): Identity {
    Identity(7, 23, 2, 808597046, 49, Finite(if family == Velocity then 12.5 else range),
             Finite(if family == Velocity then range else 200.0), Finite(10.0), true)
  }

  function KnownAt(at: nat, family: Family, range: real): Evidence {
    Evidence(at, true, AtRest(at), IdentityWith(family, range))
  }

  /** The motor's reply to a read of the family's register. */
  function ReadReply(family: Family, range: real, at: nat): Op {
    Receive(CanFrame(23, [7, 0, 0x33, Register(family), 0, 0, 0, 0]), at, Decoding(Some(Finite(range)), None, false, false))
  }

  function RestReport(at: nat): Op {
    Receive(CanFrame(23, [7, 0, 0, 0, 0, 0, 20, 20]), at, Decoding(None, Some(AtRest(at)), false, false))
  }

  /** The calls from admission at time s to completion: read, write, read back, rediscover, disable. */
  function Reading(family: Family, source: real, s: nat): seq<Op> {
    var at := s + QUIET_US;
    [Learn(KnownAt(at, family, source)), Next(at, HEALTHY), ReadReply(family, source, at), Next(at, HEALTHY)]
  }

  function ReadingBack(family: Family, target: real, s: nat): seq<Op> {
    var at := s + QUIET_US + SETTLE_US;
    [Learn(KnownAt(at, family, target)), Next(at, HEALTHY), ReadReply(family, target, at)]
  }

  function Verifying(family: Family, target: real, s: nat): seq<Op> {
    var at := s + QUIET_US + SETTLE_US + DRAIN_US;
    [Learn(KnownAt(at, family, target)), Next(at, SEARCHING), Learn(KnownAt(at, family, target)), Next(at, HEALTHY)]
  }

  function Disabling(family: Family, target: real, s: nat): seq<Op> {
    var at := s + QUIET_US + SETTLE_US + DRAIN_US;
    [Next(at, HEALTHY), Learn(KnownAt(at, family, target)), Next(at, HEALTHY)]
  }

  // ----- Completion -----

  /** A record as admission leaves it. */
  predicate JustStarted(t: Txn) {
    && t.state == Quiet && t.phaseUs == t.plan.startedUs && t.plan.register == Register(t.plan.family)
    && (t.plan.target == Original(t.plan.family) || t.plan.target == Changed(t.plan.family))
  }

  lemma PlayFour(t: Txn, a: Op, b: Op, c: Op, d: Op)
    ensures Play(t, [a, b, c, d]) == Exec(Exec(Exec(Exec(t, a).0, b).0, c).0, d).0
  {
    hide Exec;
    PlayThree(Exec(t, a).0, b, c, d);
    assert [a, b, c, d][1..] == [b, c, d];
  }

  lemma PlayThree(t: Txn, a: Op, b: Op, c: Op)
    ensures Play(t, [a, b, c]) == Exec(Exec(Exec(t, a).0, b).0, c).0
  {
    hide Exec;
    assert [a, b, c][1..] == [b, c] && [b, c][1..] == [c] && [c][1..] == [];
    var u := Exec(t, a).0;
    var v := Exec(u, b).0;
    assert Play(Exec(v, c).0, []) == Exec(v, c).0;
    assert Play(v, [c]) == Exec(v, c).0;
    assert Play(u, [b, c]) == Play(v, [c]);
  }

  lemma Learns(t: Txn, e: Evidence)
    ensures Exec(t, Learn(e)).0 == Learnt(t, e) && Learnt(t, e) == t.(evidence := Learnt(t, e).evidence)
    ensures Learnt(t, e).evidence.rxBoundaryUs == e.rxBoundaryUs
    ensures t.state == State.Discovery ==> Learnt(t, e).evidence.identity == e.identity
    ensures t.state == Baseline ==> Learnt(t, e).evidence.feedbackValid == e.feedbackValid && Learnt(t, e).evidence.feedback == e.feedback
  {
  }

  /** On an empty receive queue the next call takes its step. */
  lemma Asks(t: Txn, at: nat)
    requires t.evidence.rxBoundaryUs == at > 0 && t.InWindow(at)
    requires (t.state == Quiet && at == t.phaseUs + QUIET_US) || (t.state == Settle && at == t.phaseUs + SETTLE_US)
    ensures Exec(t, Next(at, HEALTHY)).0 == t.Enter(if t.state == Quiet then SourceWait else TargetWait, at)
  {
  }

  lemma Writes(t: Txn, at: nat)
    requires t.evidence.rxBoundaryUs == at > 0 && t.InWindow(at) && t.state == State.Write
    ensures Exec(t, Next(at, HEALTHY)).0 == t.(writes := 1).Enter(Settle, at)
  {
  }

  lemma Answers(t: Txn, range: real)
    requires t.plan.register == Register(t.plan.family)
    requires (t.state == SourceWait && range == t.source) || (t.state == TargetWait && range == t.plan.target)
    ensures Exec(t, ReadReply(t.plan.family, range, t.phaseUs)).0 == t.(state := if t.state == SourceWait then State.Write else Drain, source := if t.state == SourceWait then range else t.source)
  {
    hide Quarantined;
  }

  /** The discovery begins by forgetting; only then can it find the identity again. */
  lemma Searches(t: Txn, at: nat)
    requires t.state == Drain && t.InWindow(at) && at == t.phaseUs + DRAIN_US
    ensures Exec(t, Next(at, SEARCHING)).0 == t.(state := State.Discovery).Forget()
  {
  }

  lemma Rediscovers(t: Txn, at: nat)
    requires t.state == State.Discovery && t.InWindow(at) && t.evidence.identity.Holds(t.plan.register, t.plan.target)
    ensures Exec(t, Next(at, HEALTHY)).0 == t.(state := State.Disable)
  {
    hide Identity.Holds;
  }

  lemma Accepts(t: Txn, at: nat)
    requires t.InWindow(at) && t.state == Baseline && t.phaseUs == at && t.evidence.feedbackValid && t.evidence.feedback == AtRest(at)
    ensures Exec(t, Next(at, HEALTHY)).0 == t.(state := Done)
  {
    assert t.BaselineOk(AtRest(at));
    hide Txn.BaselineOk;
  }

  lemma ReadsAndWrites(t: Txn)
    requires JustStarted(t)
    ensures var at := t.plan.startedUs + QUIET_US; var u := Play(t, Reading(t.plan.family, t.source, t.plan.startedUs));
            u.state == Settle && u.phaseUs == at && u.plan == t.plan
  {
    var at := t.plan.startedUs + QUIET_US;
    var e := KnownAt(at, t.plan.family, t.source);
    var u := Learnt(t, e);
    PlayFour(t, Learn(e), Next(at, HEALTHY), ReadReply(t.plan.family, t.source, at), Next(at, HEALTHY));
    hide Exec, Play, Register, ReadReply, Learnt;
    Learns(t, e);
    Asks(u, at);
    Answers(u.Enter(SourceWait, at), t.source);
    Writes(u.Enter(State.Write, at), at);
  }

  lemma ReadsBack(t: Txn)
    requires t.state == Settle && t.phaseUs == t.plan.startedUs + QUIET_US && t.plan.register == Register(t.plan.family)
    ensures var at := t.plan.startedUs + QUIET_US + SETTLE_US;
            var u := Play(t, ReadingBack(t.plan.family, t.plan.target, t.plan.startedUs));
            u.state == Drain && u.phaseUs == at && u.plan == t.plan
  {
    var at := t.plan.startedUs + QUIET_US + SETTLE_US;
    var e := KnownAt(at, t.plan.family, t.plan.target);
    var u := Learnt(t, e);
    PlayThree(t, Learn(e), Next(at, HEALTHY), ReadReply(t.plan.family, t.plan.target, at));
    hide Exec, Play, Register, ReadReply, Learnt;
    Learns(t, e);
    Asks(u, at);
    Answers(u.Enter(TargetWait, at), t.plan.target);
  }

  lemma Verifies(t: Txn)
    requires t.state == Drain && t.phaseUs == t.plan.startedUs + QUIET_US + SETTLE_US && t.plan.register == Register(t.plan.family)
    ensures var u := Play(t, Verifying(t.plan.family, t.plan.target, t.plan.startedUs));
            u.state == State.Disable && u.plan == t.plan && u.evidence.rxBoundaryUs == t.phaseUs + DRAIN_US
  {
    var at := t.plan.startedUs + QUIET_US + SETTLE_US + DRAIN_US;
    var e := KnownAt(at, t.plan.family, t.plan.target);
    var u := Learnt(t, e);
    PlayFour(t, Learn(e), Next(at, SEARCHING), Learn(e), Next(at, HEALTHY));
    assert e.identity.Holds(t.plan.register, t.plan.target);
    hide Exec, Play, Register, Identity.Holds, Learnt;
    Learns(t, e);
    Searches(u, at);
    var v := u.(state := State.Discovery).Forget();
    Learns(v, e);
    Rediscovers(Learnt(v, e), at);
  }

  lemma Settles(t: Txn)
    requires t.state == State.Disable && t.evidence.rxBoundaryUs == t.plan.startedUs + QUIET_US + SETTLE_US + DRAIN_US
    ensures Play(t, Disabling(t.plan.family, t.plan.target, t.plan.startedUs)).state == Done
  {
    var at := t.plan.startedUs + QUIET_US + SETTLE_US + DRAIN_US;
    var e := KnownAt(at, t.plan.family, t.plan.target);
    PlayThree(t, Next(at, HEALTHY), Learn(e), Next(at, HEALTHY));
    hide Exec, Play, Learnt;
    assert Exec(t, Next(at, HEALTHY)).0 == t.Enter(Baseline, at);
    var u := t.Enter(Baseline, at);
    Learns(u, e);
    Accepts(Learnt(u, e), at);
  }

  /** A record as admission leaves it can still complete. */
  lemma StartedCanComplete(t: Txn) returns (ops: seq<Op>)
    requires JustStarted(t)
    ensures Play(t, ops).state == Done
  {
    var f, s := t.plan.family, t.plan.startedUs;
    var a, b, c, d := Reading(f, t.source, s), ReadingBack(f, t.plan.target, s), Verifying(f, t.plan.target, s), Disabling(f, t.plan.target, s);
    ops := a + (b + (c + d));
    PlayTwice(t, a, b + (c + d));
    PlayTwice(Play(t, a), b, c + d);
    PlayTwice(Play(Play(t, a), b), c, d);
    hide Play;
    ReadsAndWrites(t);
    ReadsBack(Play(t, a));
    Verifies(Play(Play(t, a), b));
    Settles(Play(Play(Play(t, a), b), c));
  }

  /** Every admitted transaction can still complete, whatever its family and direction. */
  lemma AdmittedCanComplete(t: Txn, id: nat, restore: bool, family: Family, at: nat, env: Surroundings) returns (ops: seq<Op>)
    requires Admissible(t, id, restore, family, at, env)
    ensures Play(t, [Start(id, restore, family, at, env)] + ops).state == Done
  {
    var u := Started(t, id, restore, family, at);
    assert JustStarted(u);
    ops := StartedCanComplete(u);
    var op := Start(id, restore, family, at, env);
    assert Exec(t, op).0 == u;
    hide Exec;
    assert ([op] + ops)[1..] == ops;
  }

  // ----- What every reachable record keeps -----

  /** A locked record has the register and a range of its family, and outside its own discovery and
      a failure it still knows an identity that a restore accepts. */
  predicate Kept(t: Txn) {
    t.Locked() ==>
      && t.plan.register == Register(t.plan.family)
      && (t.plan.target == Original(t.plan.family) || t.plan.target == Changed(t.plan.family))
      && (t.state != State.Discovery && t.state != Failed ==> Recoverable(t.plan.family, t.evidence.identity))
  }

  lemma {:induction false} ReachedIsKept(run: seq<Step>, t: Txn)
    requires Reached(run, t)
    ensures Kept(t)
  {
    if run != [] {
      var last := run[|run| - 1];
      BeforeLast(run);
      ReachedIsKept(run[..|run| - 1], last.pre);
      StepKeeps(last.pre, last.op);
    }
  }

  lemma BeforeLast(run: seq<Step>)
    requires IsRun(run) && run != []
    ensures Reached(run[..|run| - 1], run[|run| - 1].pre)
  {
    var before := run[..|run| - 1];
    assert IsRun(before);
  }

  lemma StepKeeps(t: Txn, op: Op)
    requires Kept(t)
    ensures Kept(Exec(t, op).0)
  {
    if op.Start? && Admissible(t, op.requestId, op.restore, op.family, op.at, op.env) {
      StartKeeps(t, op);
    } else {
      hide Admissible, ReplyAccepted, DisabledEvidence, Identity.Audited, Feedback.Healthy, CanFrame.IsFeedback, CanFrame.IsParameter;
    }
  }

  lemma StartKeeps(t: Txn, op: Op)
    requires op.Start? && Admissible(t, op.requestId, op.restore, op.family, op.at, op.env)
    ensures Kept(Exec(t, op).0)
  {
    hide Feedback.Healthy;
  }

  // ----- Opening the lock -----

  /** Anywhere from here on the surroundings are quiet. */
  const CALM := Surroundings(true, true, 0, true, 0)
  const CALM_US: nat := 4000

  /** From failure: the owed DISABLE leaves, the motor reports at rest, and the restore of the same
      family is admitted. */
  function Restoring(family: Family, at: nat): seq<Op> {
    [PopDisable(true), RestReport(at), Start(1, true, family, at, CALM)]
  }

  lemma Pops(t: Txn)
    ensures Exec(t, PopDisable(true)).0 == t.(disablePending := false)
  {
  }

  lemma Observes(t: Txn, at: nat)
    requires t.state == Failed && at > 0 && t.plan.startedUs <= at && t.phaseUs <= at
    ensures Exec(t, RestReport(at)).0 == t.(disabledObservedUs := at)
  {
    assert AtRest(at).Resting(0.05);
  }

  lemma Restarts(t: Txn, at: nat)
    requires t.state == Failed && t.plan.register == Register(t.plan.family) && t.plan.startedUs <= at && at >= CALM_US
    requires t.disabledObservedUs == at && !t.disablePending && Recoverable(t.plan.family, t.evidence.identity)
    ensures JustStarted(Exec(t, Start(1, true, t.plan.family, at, CALM)).0)
  {
    hide Recoverable;
  }

  lemma Restores(t: Txn, at: nat)
    requires t.state == Failed && Kept(t) && Recoverable(t.plan.family, t.evidence.identity)
    requires at >= CALM_US && t.plan.startedUs <= at && t.phaseUs <= at
    ensures JustStarted(Play(t, Restoring(t.plan.family, at)))
  {
    var f := t.plan.family;
    PlayThree(t, PopDisable(true), RestReport(at), Start(1, true, f, at, CALM));
    hide Exec, Play, JustStarted, Register, Recoverable;
    var p := t.(disablePending := false);
    Pops(t);
    Observes(p, at);
    Restarts(p.(disabledObservedUs := at), at);
  }

  lemma RecoverableCanComplete(t: Txn) returns (ops: seq<Op>)
    requires t.state == Failed && Kept(t) && Recoverable(t.plan.family, t.evidence.identity)
    ensures Play(t, ops).state == Done
  {
    var at := (if t.plan.startedUs > t.phaseUs then t.plan.startedUs else t.phaseUs) + CALM_US;
    Restores(t, at);
    var rest := StartedCanComplete(Play(t, Restoring(t.plan.family, at)));
    ops := Restoring(t.plan.family, at) + rest;
    PlayTwice(t, Restoring(t.plan.family, at), rest);
  }

  /** Without such an identity every call leaves the record failed, and as ignorant as before. */
  lemma StuckStep(t: Txn, op: Op)
    requires t.state == Failed && !Recoverable(t.plan.family, t.evidence.identity)
    ensures var u := Exec(t, op).0;
            u.state == Failed && u.plan == t.plan && u.evidence.identity == t.evidence.identity
  {
    hide Feedback.Resting, Feedback.Healthy, Recoverable, SurroundingsQuiet, ReplyAccepted;
  }

  lemma {:induction false} StuckForever(t: Txn, ops: seq<Op>)
    requires t.state == Failed && !Recoverable(t.plan.family, t.evidence.identity)
    ensures Play(t, ops).state == Failed
    decreases |ops|
  {
    hide Exec, Recoverable;
    if ops != [] {
      StuckStep(t, ops[0]);
      StuckForever(Exec(t, ops[0]).0, ops[1..]);
    }
  }

  /** A reachable failure can be recovered if and only if its family is the velocity range, or the
      retained identity is the audited one with a position range of the family. */
  lemma FailedCanRecoverIff(run: seq<Step>, t: Txn)
    requires Reached(run, t) && t.state == Failed
    ensures (exists ops :: Play(t, ops).state == Done) <==> Recoverable(t.plan.family, t.evidence.identity)
  {
    ReachedIsKept(run, t);
    if Recoverable(t.plan.family, t.evidence.identity) {
      var ops := RecoverableCanComplete(t);
    } else {
      forall ops: seq<Op> ensures Play(t, ops).state == Failed { StuckForever(t, ops); }
    }
  }

  lemma StartsFresh(t: Txn)
    requires t.state == Idle
    ensures JustStarted(Play(t, [PopDisable(true), Learn(KnownAt(CALM_US, Velocity, 200.0)), Start(1, false, Velocity, CALM_US, CALM)]))
  {
    var e := KnownAt(CALM_US, Velocity, 200.0);
    PlayThree(t, PopDisable(true), Learn(e), Start(1, false, Velocity, CALM_US, CALM));
    hide Play;
    Pops(t);
    Learns(t.(disablePending := false), e);
  }

  /** Stopping a live transaction leaves a failure that can be recovered, once its discovery (if it
      is in one) has found the identity. */
  lemma Stops(t: Txn)
    requires t.Locked() && t.state != Failed && Kept(t)
    ensures var u := Play(t, [Learn(KnownAt(t.phaseUs, t.plan.family, Original(t.plan.family))), StopRequest(t.phaseUs)]);
            u.state == Failed && Kept(u) && Recoverable(u.plan.family, u.evidence.identity)
  {
    var e := KnownAt(t.phaseUs, t.plan.family, Original(t.plan.family));
    var u := Learnt(t, e);
    var v := Exec(u, StopRequest(t.phaseUs)).0;
    assert [Learn(e), StopRequest(t.phaseUs)][1..] == [StopRequest(t.phaseUs)] && [StopRequest(t.phaseUs)][1..] == [];
    assert Play(v, []) == v;
    assert Play(u, [StopRequest(t.phaseUs)]) == v;
    StepKeeps(t, Learn(e));
    StepKeeps(u, StopRequest(t.phaseUs));
    hide Register;
  }

  /** Every reachable state can still reach DONE, except exactly a failure that cannot be recovered. */
  lemma StuckIff(run: seq<Step>, t: Txn)
    requires Reached(run, t)
    ensures (exists ops :: Play(t, ops).state == Done) <==> !(t.state == Failed && !Recoverable(t.plan.family, t.evidence.identity))
  {
    if t.state == Failed {
      FailedCanRecoverIff(run, t);
    } else {
      ReachedIsKept(run, t);
      var ops := LiveCanComplete(t);
    }
  }

  lemma LiveCanComplete(t: Txn) returns (ops: seq<Op>)
    requires Kept(t) && t.state != Failed
    ensures Play(t, ops).state == Done
  {
    hide Kept, Recoverable, Exec;
    if t.state == Done {
      ops := [];
    } else if t.state == Idle {
      var first := [PopDisable(true), Learn(KnownAt(CALM_US, Velocity, 200.0)), Start(1, false, Velocity, CALM_US, CALM)];
      StartsFresh(t);
      var rest := StartedCanComplete(Play(t, first));
      ops := first + rest;
      PlayTwice(t, first, rest);
    } else {
      var first := [Learn(KnownAt(t.phaseUs, t.plan.family, Original(t.plan.family))), StopRequest(t.phaseUs)];
      Stops(t);
      var rest := RecoverableCanComplete(Play(t, first));
      ops := first + rest;
      PlayTwice(t, first, rest);
    }
  }

  // ----- The dead end -----

  /** Any sequence of calls from a reached record is a run. */
  lemma {:induction false} PlayIsReached(run: seq<Step>, t: Txn, ops: seq<Op>) returns (longer: seq<Step>)
    requires Reached(run, t)
    ensures Reached(longer, Play(t, ops))
    decreases |ops|
  {
    if ops == [] {
      longer := run;
    } else {
      var (u, result) := Exec(t, ops[0]);
      var step := Step(ops[0], t, result, u);
      OneMore(run, t, step);
      hide Exec;
      longer := PlayIsReached(run + [step], u, ops[1..]);
    }
  }

  lemma OneMore(run: seq<Step>, t: Txn, step: Step)
    requires Reached(run, t) && step.Valid() && step.pre == t
    ensures Reached(run + [step], step.post)
  {
    hide Step.Valid;
    var longer := run + [step];
    assert forall i | 0 <= i < |run| :: longer[i] == run[i];
    if run == [] { assert longer[0].pre == t; }
  }

  const NOTHING := Evidence(0, false, AtRest(0), UNKNOWN)

  /** A position change that is stopped while it rediscovers the motor has forgotten its identity. */
  lemma ForgottenByDiscovery(t: Txn)
    requires JustStarted(t) && t.plan.family != Velocity
    ensures var f, s := t.plan.family, t.plan.startedUs; var at := s + QUIET_US + SETTLE_US + DRAIN_US;
            var u := Play(t, Reading(f, t.source, s) + (ReadingBack(f, t.plan.target, s) + [Next(at, SEARCHING), StopRequest(at)]));
            u.state == Failed && !Recoverable(u.plan.family, u.evidence.identity)
  {
    var f, s := t.plan.family, t.plan.startedUs;
    var at := s + QUIET_US + SETTLE_US + DRAIN_US;
    var a, b, c := Reading(f, t.source, s), ReadingBack(f, t.plan.target, s), [Next(at, SEARCHING), StopRequest(at)];
    PlayTwice(t, a, b + c);
    PlayTwice(Play(t, a), b, c);
    ReadsAndWrites(t);
    ReadsBack(Play(t, a));
    Forgets(Play(Play(t, a), b), at);
  }

  lemma Forgets(t: Txn, at: nat)
    requires t.state == Drain && t.InWindow(at) && at == t.phaseUs + DRAIN_US && t.plan.family != Velocity
    ensures var u := Play(t, [Next(at, SEARCHING), StopRequest(at)]); u.state == Failed && !Recoverable(u.plan.family, u.evidence.identity)
  {
    var u := t.(state := State.Discovery).Forget();
    var v := Exec(u, StopRequest(at)).0;
    Searches(t, at);
    assert [Next(at, SEARCHING), StopRequest(at)][1..] == [StopRequest(at)] && [StopRequest(at)][1..] == [];
    assert Play(v, []) == v;
    assert Play(u, [StopRequest(at)]) == v;
  }

  /** A concrete dead end: boot, a forward change of the wide position range, both reads answered, and
      a STOP during the rediscovery. Nothing but a reboot opens this lock. */
  lemma DeadEnd() returns (run: seq<Step>, t: Txn)
    ensures Reached(run, t) && t.state == Failed && forall ops :: Play(t, ops).state == Failed
  {
    var boot := Boot(NOTHING);
    var e := KnownAt(CALM_US, WidePosition, 12.5);
    var first := [PopDisable(true), Learn(e), Start(1, false, WidePosition, CALM_US, CALM)];
    PlayThree(boot, first[0], first[1], first[2]);
    Learns(boot, e);
    var u := Play(boot, first);
    assert JustStarted(u) && u.plan.family == WidePosition by {
      Pops(boot);
      assert Learnt(boot, e) == boot.(evidence := e);
      assert Admissible(boot.(evidence := e), 1, false, WidePosition, CALM_US, CALM);
    }
    var f, s := u.plan.family, u.plan.startedUs;
    var at := s + QUIET_US + SETTLE_US + DRAIN_US;
    var rest := Reading(f, u.source, s) + (ReadingBack(f, u.plan.target, s) + [Next(at, SEARCHING), StopRequest(at)]);
    ForgottenByDiscovery(u);
    hide Exec, Play, JustStarted, Recoverable;
    PlayTwice(boot, first, rest);
    t := Play(boot, first + rest);
    run := PlayIsReached([], boot, first + rest);
    forall ops: seq<Op> ensures Play(t, ops).state == Failed { StuckForever(t, ops); }
  }
}
