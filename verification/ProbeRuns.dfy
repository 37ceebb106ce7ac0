/** What every acquisition does on the wire and how it accounts for what it hears, over arbitrary
    sequences of admissions, services, pops, transmit reports and received frames. */
module ProbeRuns {
  import opened Common
  import opened AcquisitionProbe

  datatype Op =
    | Admit
    | StartClock(now: nat)
    | Leave(to: Owner)
    | Diagnose(now: nat)
    | Pop(now: nat, quiet: bool, packs: bool)
    | ReportTransmit(succeeded: bool, at: nat)
    | Receive(at: nat, reading: Reading)
    | NoteActivity

  /** The ownership module starts the acquisition clock at its first service, and may leave the
      acquisition for any reason; leaving is never back into it. */
  function Do(p: Probe, op: Op): (Probe, Option<Frame>) {
    match op
    case Admit => (if p.owner == Lcd then Admitted(p) else p, None)
    case StartClock(now) => (if p.owner == Acquiring && p.startedUs == 0 then p.(startedUs := now) else p, None)
    case Leave(to) => (if to != Acquiring then p.(owner := to) else p, None)
    case Diagnose(now) => (if p.owner == Lcd && now != 0 then Diagnosing(p, now) else p, None)
    case Pop(now, quiet, packs) => Popped(p, now, quiet, packs)
    case ReportTransmit(ok, at) => (Reported(p, ok, at), None)
    case Receive(at, reading) => (Received(p, at, reading), None)
    case NoteActivity => (if p.diagnosticUs != 0 then p.(submission := p.submission.(failed := true)) else p, None)
  }

  datatype Step = Step(op: Op, pre: Probe, post: Probe, frame: Option<Frame>)
  {
    predicate Valid() {
      (post, frame) == Do(pre, op)
    }

    /** The step hands a probe frame of an acquisition to the transmit buffer. */
    predicate Emits() {
      op.Pop? && frame.Some? && pre.owner == Acquiring
    }

    predicate Begins() {
      op.Admit? && pre.owner == Lcd
    }
  }

  ghost predicate IsRun(run: seq<Step>) {
    && (forall i | 0 <= i < |run| :: run[i].Valid())
    && (forall i | 0 <= i < |run| - 1 :: run[i].post == run[i + 1].pre)
    && (run != [] ==> run[0].pre == BOOT)
  }

  function Final(run: seq<Step>): Probe {
    if run == [] then BOOT else run[|run| - 1].post
  }

  /** Where the frames of the latest acquisition were emitted. */
  function Emissions(run: seq<Step>): seq<nat> {
    if run == [] then []
    else
      var last, before := run[|run| - 1], Emissions(run[..|run| - 1]);
      if last.Begins() then [] else if last.Emits() then before + [|run| - 1] else before
  }

  /** A success report for the last submission, before step j. */
  predicate SucceededBetween(run: seq<Step>, i: nat, j: nat)
    requires i < |run| && run[i].op.Pop? && j <= |run|
  {
    exists r | i < r < j :: run[r].op.ReportTransmit? && run[r].op.succeeded && run[r].op.at >= run[i].op.now
  }

  /** Emission k of an acquisition: its kind, its window, and its distance from the previous one. */
  predicate Emission(run: seq<Step>, marks: seq<nat>, k: nat)
    requires k < |marks| && forall i | 0 <= i < |marks| :: marks[i] < |run| && run[marks[i]].op.Pop?
  {
    var step := run[marks[k]];
    && step.Emits() && step.frame.value == (if k == 1 then NeutralFrame else DisableFrame)
    && InWindow(step.pre, step.op.now)
    && (k > 0 ==> marks[k - 1] < marks[k] && SucceededBetween(run, marks[k - 1], marks[k]))
    && (k > 1 ==> step.op.now >= run[marks[k - 1]].op.now + RETRY_US)
  }

  /** At most five frames: DISABLE, neutral, and up to three DISABLE. */
  predicate Shaped(run: seq<Step>, marks: seq<nat>) {
    && |marks| <= 2 + RETRY_LIMIT
    && (forall i | 0 <= i < |marks| :: marks[i] < |run| && run[marks[i]].op.Pop?)
    && forall k | 0 <= k < |marks| :: Emission(run, marks, k)
  }

  /** How the record of a running acquisition relates to the frames it emitted. */
  ghost predicate Linked(run: seq<Step>, p: Probe, marks: seq<nat>)
    requires Shaped(run, marks)
  {
    && |marks| == (if p.submission.atUs == 0 then 0 else 1) + (if p.progress.neutralSubmitted then 1 else 0) + p.progress.retries
    && (p.progress.neutralSubmitted ==> p.submission.atUs != 0 && p.progress.disableTransmitted)
    && (p.progress.retries > 0 ==> p.progress.neutralSubmitted) && p.progress.retries <= RETRY_LIMIT
    && (marks != [] ==> p.submission.atUs == run[marks[|marks| - 1]].op.now)
    && (p.submission.atUs == 0 ==> !p.submission.transmitted && !p.progress.disableTransmitted)
    && (p.progress.disableTransmitted && !p.progress.neutralSubmitted ==> SucceededBetween(run, marks[|marks| - 1], |run|))
    && (p.submission.transmitted ==> SucceededBetween(run, marks[|marks| - 1], |run|))
  }

  ghost predicate Inv(run: seq<Step>) {
    && Shaped(run, Emissions(run))
    && (Final(run).owner == Acquiring ==> Linked(run, Final(run), Emissions(run)))
  }

  lemma SuccessKept(run: seq<Step>, step: Step, i: nat, j: nat)
    requires i < |run| && run[i].op.Pop? && j <= |run| && SucceededBetween(run, i, j)
    ensures SucceededBetween(run + [step], i, j) && SucceededBetween(run + [step], i, |run| + 1)
  {
    var r :| i < r < j && run[r].op.ReportTransmit? && run[r].op.succeeded && run[r].op.at >= run[i].op.now;
    assert (run + [step])[r] == run[r] && (run + [step])[i] == run[i];
  }

  lemma ShapeKept(run: seq<Step>, step: Step, marks: seq<nat>)
    requires Shaped(run, marks)
    ensures Shaped(run + [step], marks)
  {
    var more := run + [step];
    assert forall i | 0 <= i < |run| :: more[i] == run[i];
    forall k | 0 <= k < |marks|
      ensures Emission(more, marks, k)
    {
      assert Emission(run, marks, k);
      if k > 0 { SuccessKept(run, step, marks[k - 1], marks[k]); }
    }
  }

  /** A frame of an acquisition is the first, the neutral one, or a due retry. */
  lemma EmissionKind(step: Step)
    requires step.Valid() && step.Emits()
    ensures InWindow(step.pre, step.op.now) && step.post == Submitted(step.pre, step.op.now) && step.op.now > 0
    ensures step.frame.value == if NeutralDue(step.pre) then NeutralFrame else DisableFrame
    ensures step.pre.submission.atUs == 0 || NeutralDue(step.pre) || RetryDue(step.pre, step.op.now)
  {
  }

  lemma EmissionAdds(run: seq<Step>, step: Step, marks: seq<nat>)
    requires Shaped(run, marks) && Linked(run, step.pre, marks) && step.Valid() && step.Emits()
    ensures var more, all := run + [step], marks + [|run|];
            Shaped(more, all) && Linked(more, step.post, all)
  {
    EmissionKind(step);
    ShapeKept(run, step, marks);
    var more, all := run + [step], marks + [|run|];
    var p := step.pre;
    assert more[|run|] == step;
    assert forall i | 0 <= i < |run| :: more[i] == run[i];
    if marks != [] { SuccessKept(run, step, marks[|marks| - 1], |run|); }
    assert Emission(more, all, |marks|);
    forall k | 0 <= k < |all|
      ensures Emission(more, all, k)
    {
      if k < |marks| { assert Emission(more, marks, k); }
    }
  }

  /** Every other step of a running acquisition leaves the emissions alone. */
  lemma OthersKeepLink(run: seq<Step>, step: Step, marks: seq<nat>)
    requires Shaped(run, marks) && Linked(run, step.pre, marks) && step.Valid() && !step.Emits()
    requires step.pre.owner == Acquiring && step.post.owner == Acquiring
    ensures Shaped(run + [step], marks) && Linked(run + [step], step.post, marks)
  {
    ShapeKept(run, step, marks);
    var more := run + [step];
    assert forall i | 0 <= i < |run| :: more[i] == run[i];
    if marks != [] {
      var last := marks[|marks| - 1];
      if SucceededBetween(run, last, |run|) { SuccessKept(run, step, last, |run|); }
      if step.op.ReportTransmit? && step.op.succeeded && step.op.at >= run[last].op.now {
        assert more[|run|] == step;
        assert SucceededBetween(more, last, |run| + 1);
      }
    }
    hide Accounted;
  }

  lemma {:induction false} RunKeepsInv(run: seq<Step>)
    requires IsRun(run)
    ensures Inv(run)
  {
    if run != [] {
      var before, step := run[..|run| - 1], run[|run| - 1];
      RunKeepsInv(before);
      assert run == before + [step] && step.pre == Final(before);
      var marks := Emissions(before);
      ShapeKept(before, step, marks);
      hide Linked, Shaped;
      if step.Begins() {
        assert Shaped(run, []) && Linked(run, step.post, []);
      } else if step.Emits() {
        EmissionAdds(before, step, marks);
        StaysAcquiring(step);
      } else if step.post.owner == Acquiring {
        WasAcquiring(step);
        OthersKeepLink(before, step, marks);
      }
    }
  }

  lemma StaysAcquiring(step: Step)
    requires step.Valid() && step.Emits()
    ensures step.post.owner == Acquiring
  {
  }

  lemma WasAcquiring(step: Step)
    requires step.Valid() && step.post.owner == Acquiring && !step.Begins()
    ensures step.pre.owner == Acquiring
  {
    hide Accounted;
  }

  /** Every acquisition of every run emits at most five frames, shaped DISABLE, neutral, DISABLE,
      DISABLE, DISABLE, each after a success report since the one before, retries at least four
      milliseconds apart, and none at or past the deadline. */
  lemma AcquisitionShape(run: seq<Step>)
    requires IsRun(run)
    ensures Shaped(run, Emissions(run))
  {
    RunKeepsInv(run);
  }

  // ----- Accounting -----

  /** Received frames are the ones of the DISABLE phase, of the neutral phase, and the unassigned. */
  predicate Balanced(r: Receipts) {
    r.total == (r.disable.raw + r.neutral.raw + r.unassigned) % U32_RANGE
  }

  lemma AccountedBalanced(r: Receipts, at: nat, reading: Reading)
    requires Balanced(r)
    ensures Balanced(Accounted(r, at, reading))
  {
    var a := Accounted(r, at, reading);
    hide Accounted, Counted;
    AccountedOnce(r, at, reading);
    OneMore(r.disable.raw, r.neutral.raw + r.unassigned);
    OneMore(r.neutral.raw, r.disable.raw + r.unassigned);
    OneMore(r.unassigned, r.disable.raw + r.neutral.raw);
    hide Next32;
  }

  /** Exactly one of the three counters moves. */
  lemma AccountedOnce(r: Receipts, at: nat, reading: Reading)
    ensures var a := Accounted(r, at, reading);
            && a.total == Next32(r.total)
            && ((a.disable.raw == Next32(r.disable.raw) && a.neutral.raw == r.neutral.raw && a.unassigned == r.unassigned)
                || (a.disable.raw == r.disable.raw && a.neutral.raw == Next32(r.neutral.raw) && a.unassigned == r.unassigned)
                || (a.disable.raw == r.disable.raw && a.neutral.raw == r.neutral.raw && a.unassigned == Next32(r.unassigned)))
  {
  }

  lemma OneMore(x: nat, rest: nat)
    ensures (Next32(x) + rest) % U32_RANGE == Next32((x + rest) % U32_RANGE)
  {
    ModuloAbsorbs(x + 1, rest);
    ModuloAbsorbs(x + rest, 1);
  }

  lemma ModuloAbsorbs(x: nat, y: nat)
    ensures (x % U32_RANGE + y) % U32_RANGE == (x + y) % U32_RANGE
  {
    var k := x / U32_RANGE;
    assert x % U32_RANGE + y + U32_RANGE * k == x + y;
    assert ((x % U32_RANGE + y) + U32_RANGE * k) % U32_RANGE == (x % U32_RANGE + y) % U32_RANGE;
  }

  lemma {:induction false} CountsBalance(run: seq<Step>)
    requires IsRun(run)
    ensures Balanced(Final(run).receipts)
  {
    if run != [] {
      var step := run[|run| - 1];
      CountsBalance(run[..|run| - 1]);
      hide Accounted, Balanced;
      if step.op.Receive? {
        AccountedBalanced(step.pre.receipts, step.op.at, step.op.reading);
      } else {
        assert Balanced(step.post.receipts);
      }
    }
  }

}
