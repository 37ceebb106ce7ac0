/** The acquisition probe of App/aethor_app.c: a DISABLE, then one neutral frame, then up to three
    further DISABLE frames, each only after the previous one was reported sent, and the accounting
    of received frames over the phases of the probe. */
module AcquisitionProbe {
  import opened Common

  const TIMEOUT_US: nat := 100000
  const RETRY_LIMIT: nat := 3
  const RETRY_US: nat := 4000

  datatype Owner = Lcd | Acquiring | Adrc | Releasing

  datatype Frame = DisableFrame | NeutralFrame | QueryFrame

  /** The last probe frame handed to the transmit buffer. */
  datatype Submission = Submission(atUs: nat, transmitted: bool, failed: bool)

  /** How far the acquisition has come. */
  datatype Progress = Progress(disableTransmitted: bool, neutralSubmitted: bool, retries: nat)

  datatype Phase = Phase(submittedUs: nat, raw: nat, valid: nat, other: nat)

  /** Frames received since the first probe frame, and the phase each was counted in. */
  datatype Receipts = Receipts(firstUs: nat, total: nat, unknown: nat, stale: nat, other: nat, valid: nat, rejected: nat,
                               unassigned: nat, disable: Phase, neutral: Phase)

  const NO_SUBMISSION := Submission(0, false, false)
  const NO_PROGRESS := Progress(false, false, 0)
  const NO_RECEIPTS := Receipts(0, 0, 0, 0, 0, 0, 0, 0, Phase(0, 0, 0, 0), Phase(0, 0, 0, 0))

  datatype Probe = Probe(owner: Owner, startedUs: nat, diagnosticUs: nat, submission: Submission, progress: Progress, receipts: Receipts)

  const BOOT := Probe(Lcd, 0, 0, NO_SUBMISSION, NO_PROGRESS, NO_RECEIPTS)

  function Next32(x: nat): nat {
    (x + 1) % U32_RANGE
  }

  function Bump(flag: bool, x: nat): nat {
    if flag then Next32(x) else x
  }

  /** An admitted acquisition starts from a clean record; its clock starts at the first service. */
  function Admitted(p: Probe): Probe {
    Probe(Acquiring, 0, 0, NO_SUBMISSION, NO_PROGRESS, NO_RECEIPTS)
  }

  function Diagnosing(p: Probe, now: nat): Probe {
    p.(diagnosticUs := now, submission := NO_SUBMISSION, progress := p.progress.(disableTransmitted := false, neutralSubmitted := false))
  }

  // ----- Submitting -----

  predicate NeutralDue(p: Probe) {
    p.owner == Acquiring && p.progress.disableTransmitted && !p.progress.neutralSubmitted
  }

  predicate RetryDue(p: Probe, now: nat) {
    && p.owner == Acquiring && p.progress.disableTransmitted && p.progress.neutralSubmitted
    && p.submission.transmitted && p.progress.retries < RETRY_LIMIT
    && now >= p.submission.atUs && now - p.submission.atUs >= RETRY_US
  }

  /** Half-open window of the acquisition, from its first service. */
  predicate InWindow(p: Probe, now: nat) {
    p.startedUs != 0 && p.startedUs <= now < p.startedUs + TIMEOUT_US
  }

  predicate DiagnosticOpen(p: Probe, now: nat) {
    p.owner == Lcd && p.diagnosticUs != 0 && p.diagnosticUs <= now <= p.diagnosticUs + TIMEOUT_US
  }

  predicate MayPop(p: Probe, now: nat) {
    && now != 0 && (p.owner == Acquiring ==> InWindow(p, now))
    && (p.owner == Acquiring || DiagnosticOpen(p, now))
    && (p.submission.atUs == 0 || NeutralDue(p) || RetryDue(p, now))
    && !p.submission.failed
  }

  function Submitted(p: Probe, now: nat): Probe {
    var neutral, retry, acquiring := NeutralDue(p), RetryDue(p, now), p.owner == Acquiring;
    var r := p.receipts;
    var phased := if !acquiring || retry then r
                  else if neutral then r.(neutral := r.neutral.(submittedUs := now))
                  else r.(disable := r.disable.(submittedUs := now));
    Probe(p.owner, p.startedUs, p.diagnosticUs,
          Submission(now, if neutral || retry then false else p.submission.transmitted, false),
          Progress(p.progress.disableTransmitted, p.progress.neutralSubmitted || neutral, p.progress.retries + if retry then 1 else 0),
          if acquiring && r.firstUs == 0 then phased.(firstUs := now) else phased)
  }

  /** `quiet` is the gathered evidence of idle producers and bus; `packs` whether the frame was built. */
  function Popped(p: Probe, now: nat, quiet: bool, packs: bool): (Probe, Option<Frame>) {
    if !MayPop(p, now) || !quiet then (p, None)
    else if !packs then (p.(submission := p.submission.(failed := true)), None)
    else (Submitted(p, now), Some(if p.owner != Acquiring then QueryFrame else if NeutralDue(p) then NeutralFrame else DisableFrame))
  }

  // ----- Reports and receptions -----

  function Reported(p: Probe, succeeded: bool, at: nat): Probe {
    if !(p.owner == Acquiring || (p.owner == Lcd && p.diagnosticUs != 0)) || p.submission.atUs == 0 then p
    else if succeeded && at >= p.submission.atUs then
      p.(submission := p.submission.(transmitted := true),
         progress := if p.owner == Acquiring && !p.progress.neutralSubmitted then p.progress.(disableTransmitted := true) else p.progress)
    else p.(submission := p.submission.(failed := true))
  }

  /** What the motor runtime made of a received frame. */
  datatype Reading = Reading(fromTarget: bool, accepted: bool, rejected: bool)

  function PhaseOf(r: Receipts, at: nat): Option<bool> {
    if at <= r.firstUs then None
    else if r.neutral.submittedUs == 0 then Some(false)
    else if at > r.neutral.submittedUs then Some(true)
    else None
  }

  function Counted(ph: Phase, reading: Reading): Phase {
    Phase(ph.submittedUs, Next32(ph.raw), Bump(reading.fromTarget && reading.accepted, ph.valid), Bump(!reading.fromTarget, ph.other))
  }

  function Accounted(r: Receipts, at: nat, reading: Reading): Receipts {
    var phase := PhaseOf(r, at);
    Receipts(r.firstUs, Next32(r.total), Bump(at == 0, r.unknown), Bump(at != 0 && at <= r.firstUs, r.stale),
             Bump(!reading.fromTarget, r.other), Bump(reading.fromTarget && reading.accepted, r.valid),
             Bump(reading.fromTarget && reading.rejected, r.rejected), Bump(phase == None, r.unassigned),
             if phase == Some(false) then Counted(r.disable, reading) else r.disable,
             if phase == Some(true) then Counted(r.neutral, reading) else r.neutral)
  }

  function Received(p: Probe, at: nat, reading: Reading): Probe {
    if p.owner == Acquiring && p.receipts.firstUs != 0 then p.(receipts := Accounted(p.receipts, at, reading)) else p
  }

  // ----- Imperative form -----

  class ProbeRecord {
    var owner: Owner
    var startedUs: nat
    var diagnosticUs: nat
    var submission: Submission
    var progress: Progress
    var receipts: Receipts

    ghost function Model(): Probe
      reads this
    {
      Probe(owner, startedUs, diagnosticUs, submission, progress, receipts)
    }

    constructor ()
      ensures Model() == BOOT
    {
      owner, startedUs, diagnosticUs, submission, progress, receipts := Lcd, 0, 0, NO_SUBMISSION, NO_PROGRESS, NO_RECEIPTS;
    }

    method Admit()
      requires owner == Lcd
      modifies this
      ensures Model() == Admitted(old(Model()))
    {
      owner, startedUs, diagnosticUs := Acquiring, 0, 0;
      submission, progress, receipts := NO_SUBMISSION, NO_PROGRESS, NO_RECEIPTS;
    }

    method PopProbeFrame(now: nat, quiet: bool, packs: bool) returns (frame: Option<Frame>)
      modifies this
      ensures (Model(), frame) == Popped(old(Model()), now, quiet, packs)
    {
      if now == 0 { return None; }
      var acquiring := owner == Acquiring;
      var neutralDue := acquiring && progress.disableTransmitted && !progress.neutralSubmitted;
      var retryDue := acquiring && progress.disableTransmitted && progress.neutralSubmitted && submission.transmitted
        && progress.retries < RETRY_LIMIT && now >= submission.atUs && now - submission.atUs >= RETRY_US;
      if acquiring && (startedUs == 0 || now < startedUs || now - startedUs >= TIMEOUT_US) { return None; }
      if !acquiring && !(owner == Lcd && diagnosticUs != 0 && now >= diagnosticUs && now - diagnosticUs <= TIMEOUT_US) { return None; }
      if !(submission.atUs == 0 || neutralDue || retryDue) || submission.failed || !quiet { return None; }
      if !packs {
        submission := submission.(failed := true);
        return None;
      }
      submission := submission.(atUs := now);
      if acquiring && !retryDue {
        if neutralDue { receipts := receipts.(neutral := receipts.neutral.(submittedUs := now)); }
        else { receipts := receipts.(disable := receipts.disable.(submittedUs := now)); }
      }
      if acquiring && receipts.firstUs == 0 { receipts := receipts.(firstUs := now); }
      if neutralDue {
        submission := submission.(transmitted := false);
        progress := progress.(neutralSubmitted := true);
      }
      if retryDue {
        progress := progress.(retries := progress.retries + 1);
        submission := submission.(transmitted := false);
      }
      return Some(if !acquiring then QueryFrame else if neutralDue then NeutralFrame else DisableFrame);
    }

    method ReportTransmit(succeeded: bool, at: nat)
      modifies this`submission, this`progress
      ensures Model() == Reported(old(Model()), succeeded, at)
    {
      if !(owner == Acquiring || (owner == Lcd && diagnosticUs != 0)) || submission.atUs == 0 { return; }
      if succeeded && at >= submission.atUs {
        submission := submission.(transmitted := true);
        if owner == Acquiring && !progress.neutralSubmitted { progress := progress.(disableTransmitted := true); }
      } else {
        submission := submission.(failed := true);
      }
    }

    method ReceiveFrame(at: nat, reading: Reading)
      modifies this`receipts
      ensures Model() == Received(old(Model()), at, reading)
    {
      if owner != Acquiring || receipts.firstUs == 0 { return; }
      var r := receipts.(total := Next32(receipts.total));
      if at == 0 { r := r.(unknown := Next32(r.unknown)); } else if at <= r.firstUs { r := r.(stale := Next32(r.stale)); }
      if !reading.fromTarget {
        r := r.(other := Next32(r.other));
      } else {
        if reading.accepted { r := r.(valid := Next32(r.valid)); }
        if reading.rejected { r := r.(rejected := Next32(r.rejected)); }
      }
      if at > r.firstUs && r.neutral.submittedUs == 0 {
        r := r.(disable := Counted(r.disable, reading));
      } else if at > r.firstUs && at > r.neutral.submittedUs {
        r := r.(neutral := Counted(r.neutral, reading));
      } else {
        r := r.(unassigned := Next32(r.unassigned));
      }
      receipts := r;
    }
  }
}
