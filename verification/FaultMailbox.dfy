/** The transport-fault mailbox of App/aethor_app.c: one producer and one consumer share two slots
    and two wrapping 8-bit counters, and interleave access by access. */
module FaultMailbox {
  import opened Common

  const SLOTS: nat := 2

  /** A fault as reported: the bits set in its detail word, and its time. */
  datatype Fault = Fault(detail: set<nat>, stampUs: nat)

  /** The producer is idle, or at one of the accesses of a report. */
  datatype Producer =
    | Idle
    | Counting(fault: Fault)
    | WritingDetail(fault: Fault)
    | WritingStamp(fault: Fault)
    | Publishing(fault: Fault)

  /** The consumer is idle, or at one of the accesses of a take, with what it merged so far. */
  datatype Consumer =
    | Resting
    | Comparing(detail: set<nat>, stampUs: nat, count: nat)
    | CopyingDetail(detail: set<nat>, stampUs: nat, count: nat)
    | CopyingStamp(detail: set<nat>, stampUs: nat, count: nat, half: set<nat>)
    | Releasing(detail: set<nat>, stampUs: nat, count: nat, copied: Fault)

  /** The two slots and counters as stored, both programs, and the history: every fault stored so
      far in order, how many were consumed, and how many were before the take in progress. */
  datatype Mailbox = Mailbox(slots: seq<Fault>, write: nat, read: nat, producer: Producer, consumer: Consumer,
                             stored: seq<Fault>, consumed: nat, takenFrom: nat)

  datatype Access = Report(fault: Fault) | Produce | Take | Consume

  const BLANK := Fault({}, 0)
  const START := Mailbox([BLANK, BLANK], 0, 0, Idle, Resting, [], 0, 0)

  function Next8(x: nat): nat {
    (x + 1) % 256
  }

  /** One access of the reporting side. A full mailbox drops the report, which still succeeds. */
  function Produced(m: Mailbox): Mailbox
    requires |m.slots| == SLOTS
  {
    match m.producer
    case Idle => m
    case Counting(f) => m.(producer := if Distance8(m.write, m.read) >= SLOTS then Idle else WritingDetail(f))
    case WritingDetail(f) =>
      m.(slots := m.slots[m.write % SLOTS := m.slots[m.write % SLOTS].(detail := f.detail)], producer := WritingStamp(f))
    case WritingStamp(f) =>
      m.(slots := m.slots[m.write % SLOTS := m.slots[m.write % SLOTS].(stampUs := f.stampUs)], producer := Publishing(f))
    case Publishing(f) => m.(write := Next8(m.write), producer := Idle, stored := m.stored + [f])
  }

  /** One access of the taking side. */
  function Consumed(m: Mailbox): Mailbox
    requires |m.slots| == SLOTS
  {
    match m.consumer
    case Resting => m
    case Comparing(d, t, n) => m.(consumer := if m.read == m.write then Resting else CopyingDetail(d, t, n))
    case CopyingDetail(d, t, n) => m.(consumer := CopyingStamp(d, t, n, m.slots[m.read % SLOTS].detail))
    case CopyingStamp(d, t, n, c) => m.(consumer := Releasing(d, t, n, Fault(c, m.slots[m.read % SLOTS].stampUs)))
    case Releasing(d, t, n, c) =>
      m.(read := Next8(m.read), consumer := Comparing(d + c.detail, if n == 0 then c.stampUs else t, n + 1), consumed := m.consumed + 1)
  }

  function Step(m: Mailbox, a: Access): Mailbox
    requires |m.slots| == SLOTS
  {
    match a
    case Report(f) => if m.producer.Idle? && f.detail != {} then m.(producer := Counting(f)) else m
    case Produce => Produced(m)
    case Take => if m.consumer.Resting? then m.(consumer := Comparing({}, 0, 0), takenFrom := m.consumed) else m
    case Consume => Consumed(m)
  }

  lemma StepKeepsSlots(m: Mailbox, a: Access)
    requires |m.slots| == SLOTS
    ensures |Step(m, a).slots| == SLOTS
  {
  }

  function Run(accesses: seq<Access>): (m: Mailbox)
    ensures |m.slots| == SLOTS
  {
    if accesses == [] then START
    else
      StepKeepsSlots(Run(accesses[..|accesses| - 1]), accesses[|accesses| - 1]);
      Step(Run(accesses[..|accesses| - 1]), accesses[|accesses| - 1])
  }

  // ----- What a take has to return -----

  /** Union of all details. */
  function Merged(faults: seq<Fault>): set<nat> {
    if faults == [] then {} else Merged(faults[..|faults| - 1]) + faults[|faults| - 1].detail
  }

  function Oldest(faults: seq<Fault>): nat {
    if faults == [] then 0 else faults[0].stampUs
  }

  /** The faults consumed by the take in progress. */
  function Batch(m: Mailbox): seq<Fault>
    requires m.takenFrom <= m.consumed <= |m.stored|
  {
    m.stored[m.takenFrom..m.consumed]
  }

  predicate Merges(m: Mailbox, detail: set<nat>, stampUs: nat, count: nat)
    requires m.takenFrom <= m.consumed <= |m.stored|
  {
    detail == Merged(Batch(m)) && stampUs == Oldest(Batch(m)) && count == |Batch(m)|
  }

  // ----- Invariant -----

  function Waiting(m: Mailbox): int {
    |m.stored| - m.consumed
  }

  /** The counters are the history lengths modulo 256; waiting faults lie whole in their slots; a
      producer past its check owns a slot that no waiting fault lies in. */
  predicate CountersInv(m: Mailbox) {
    && |m.slots| == SLOTS && m.consumed <= |m.stored| <= m.consumed + SLOTS
    && m.write == |m.stored| % 256 && m.read == m.consumed % 256
    && (forall i | m.consumed <= i < |m.stored| :: m.slots[i % SLOTS] == m.stored[i])
  }

  predicate ProducerInv(m: Mailbox)
    requires CountersInv(m)
  {
    match m.producer
    case Idle => true
    case Counting(_) => true
    case WritingDetail(_) => Waiting(m) < SLOTS
    case WritingStamp(f) => Waiting(m) < SLOTS && m.slots[|m.stored| % SLOTS].detail == f.detail
    case Publishing(f) => Waiting(m) < SLOTS && m.slots[|m.stored| % SLOTS] == f
  }

  predicate ConsumerInv(m: Mailbox)
    requires CountersInv(m)
  {
    && m.takenFrom <= m.consumed
    && match m.consumer
       case Resting => true
       case Comparing(d, t, n) => Merges(m, d, t, n)
       case CopyingDetail(d, t, n) => Merges(m, d, t, n) && Waiting(m) > 0
       case CopyingStamp(d, t, n, c) => Merges(m, d, t, n) && Waiting(m) > 0 && c == m.stored[m.consumed].detail
       case Releasing(d, t, n, c) => Merges(m, d, t, n) && Waiting(m) > 0 && c == m.stored[m.consumed]
  }

  predicate Inv(m: Mailbox) {
    CountersInv(m) && ProducerInv(m) && ConsumerInv(m)
  }

  lemma Counters(stored: nat, consumed: nat)
    requires consumed <= stored <= consumed + SLOTS
    ensures Distance8(stored % 256, consumed % 256) == stored - consumed
    ensures stored % 256 == consumed % 256 <==> stored == consumed
    ensures stored % 256 % SLOTS == stored % SLOTS && consumed % 256 % SLOTS == consumed % SLOTS
    ensures Next8(stored % 256) == (stored + 1) % 256 && Next8(consumed % 256) == (consumed + 1) % 256
  {
    hide Next8, Distance8;
    Wrap(stored);
    Wrap(consumed);
    Gap(stored, consumed);
  }

  lemma Wrap(x: nat)
    ensures Next8(x % 256) == (x + 1) % 256 && x % 256 % SLOTS == x % SLOTS
  {
  }

  lemma Gap(stored: nat, consumed: nat)
    requires consumed <= stored <= consumed + SLOTS
    ensures Distance8(stored % 256, consumed % 256) == stored - consumed
    ensures stored % 256 == consumed % 256 <==> stored == consumed
  {
    var k := consumed / 256 - stored / 256;
    assert stored % 256 - consumed % 256 == stored - consumed + 256 * k;
    SmallModulo(stored - consumed, k);
  }

  lemma SmallModulo(d: nat, k: int)
    requires d < 256
    ensures (d + 256 * k) % 256 == d
  {
  }

  lemma OtherSlot(i: nat, stored: nat)
    requires stored - 1 <= i < stored
    ensures i % SLOTS != stored % SLOTS
  {
  }

  lemma ProducerStep(m: Mailbox)
    requires Inv(m)
    ensures Inv(Produced(m))
  {
    Counters(|m.stored|, m.consumed);
    if |m.stored| > 0 { OtherSlot(|m.stored| - 1, |m.stored|); }
    hide Next8, Distance8, Merged, Oldest;
    var p := Produced(m);
    assert p.stored[..|m.stored|] == m.stored;
    assert Batch(p) == Batch(m);
  }

  lemma MergedMore(faults: seq<Fault>, f: Fault)
    ensures Merged(faults + [f]) == Merged(faults) + f.detail
    ensures Oldest(faults + [f]) == if faults == [] then f.stampUs else Oldest(faults)
  {
    assert (faults + [f])[..|faults|] == faults;
  }

  lemma ConsumerStep(m: Mailbox)
    requires Inv(m)
    ensures Inv(Consumed(m))
  {
    hide Next8, Distance8, Merged, Oldest;
    Counters(|m.stored|, m.consumed);
    if m.consumer.Releasing? {
      MergedMore(Batch(m), m.stored[m.consumed]);
      assert Batch(Consumed(m)) == Batch(m) + [m.stored[m.consumed]];
    }
  }

  lemma StepKeepsInv(m: Mailbox, a: Access)
    requires Inv(m)
    ensures Inv(Step(m, a))
  {
    hide Produced, Consumed;
    match a
    case Report(f) =>
    case Produce => ProducerStep(m);
    case Take => assert m.stored[m.consumed..m.consumed] == [];
    case Consume => ConsumerStep(m);
  }

  lemma {:induction false} RunKeepsInv(accesses: seq<Access>)
    ensures Inv(Run(accesses))
  {
    if accesses != [] {
      RunKeepsInv(accesses[..|accesses| - 1]);
      StepKeepsInv(Run(accesses[..|accesses| - 1]), accesses[|accesses| - 1]);
    }
  }

  // ----- Results -----

  /** A take that finds the mailbox empty returns the OR of every detail it consumed and the stamp
      of the oldest of them, in storage order and without a half-written slot among them. */
  lemma TakeMergesBatch(accesses: seq<Access>)
    requires Run(accesses).consumer.Comparing? && Run(accesses).read == Run(accesses).write
    ensures var m := Run(accesses); var c := m.consumer;
            && m.takenFrom <= m.consumed == |m.stored|
            && c.detail == Merged(Batch(m)) && c.stampUs == Oldest(Batch(m)) && (c.count != 0 <==> m.takenFrom < |m.stored|)
  {
    RunKeepsInv(accesses);
    hide Run, Merged, Oldest;
    Counters(|Run(accesses).stored|, Run(accesses).consumed);
  }

  /** A slot is only written while no waiting fault lies in it. */
  lemma WritesFreeSlot(accesses: seq<Access>)
    requires var p := Run(accesses).producer; p.WritingDetail? || p.WritingStamp? || p.Publishing?
    ensures var m := Run(accesses); m.consumed <= |m.stored| && forall i | m.consumed <= i < |m.stored| :: i % SLOTS != m.write % SLOTS
  {
    RunKeepsInv(accesses);
    hide Run;
    var m := Run(accesses);
    Counters(|m.stored|, m.consumed);
    if m.consumed < |m.stored| { OtherSlot(|m.stored| - 1, |m.stored|); }
  }

  /** A report that is dropped because the mailbox is full still succeeds: at that access two
      earlier faults are pending, so a safety stop is already owed. */
  lemma DropLeavesFaultPending(accesses: seq<Access>)
    requires Run(accesses).producer.Counting? && Produced(Run(accesses)).producer.Idle?
    ensures var m := Run(accesses); m.consumed + SLOTS == |m.stored| && Produced(m).stored == m.stored
    ensures var m := Run(accesses); m.stored[m.consumed..] == [m.slots[m.read % SLOTS], m.slots[(m.read + 1) % SLOTS]]
  {
    RunKeepsInv(accesses);
    hide Run;
    var m := Run(accesses);
    Counters(|m.stored|, m.consumed);
    assert m.stored[m.consumed] == m.slots[m.consumed % SLOTS] && m.stored[m.consumed + 1] == m.slots[(m.consumed + 1) % SLOTS];
  }

  // ----- The mailbox as static storage, without interruption -----

  function Pending(slots: seq<Fault>, read: nat, n: nat): (p: seq<Fault>)
    requires |slots| == SLOTS
    ensures |p| == n
  {
    seq(n, i requires 0 <= i < n => slots[(read + i) % SLOTS])
  }

  lemma PendingPut(slots: seq<Fault>, write: nat, read: nat, f: Fault)
    requires |slots| == SLOTS && write < 256 && read < 256 && Distance8(write, read) < SLOTS
    ensures Distance8(Next8(write), read) == Distance8(write, read) + 1
    ensures Pending(slots[write % SLOTS := f], read, Distance8(write, read) + 1) == Pending(slots, read, Distance8(write, read)) + [f]
  {
    assert (read + Distance8(write, read)) % SLOTS == write % SLOTS;
  }

  lemma PendingTake(slots: seq<Fault>, write: nat, read: nat)
    requires |slots| == SLOTS && write < 256 && read < 256 && read != write && Distance8(write, read) <= SLOTS
    ensures Distance8(write, read) > 0 && Distance8(write, Next8(read)) == Distance8(write, read) - 1 && Next8(read) < 256
    ensures Pending(slots, read, Distance8(write, read)) == [slots[read % SLOTS]] + Pending(slots, Next8(read), Distance8(write, read) - 1)
  {
    assert (Next8(read) + 0) % SLOTS == (read + 1) % SLOTS;
  }

  lemma MergedFront(f: Fault, faults: seq<Fault>)
    ensures Merged([f] + faults) == f.detail + Merged(faults)
  {
    if faults != [] {
      MergedFront(f, faults[..|faults| - 1]);
      assert ([f] + faults)[..|faults|] == [f] + faults[..|faults| - 1];
    } else {
      assert [f] + faults == [f] && [f][..0] == [];
    }
  }

  lemma MergedNone()
    ensures Merged([]) == {} && Oldest([]) == 0
    ensures forall faults: seq<Fault> | faults != [] :: Oldest(faults) == faults[0].stampUs
  {
  }

  lemma NoDistance(x: nat)
    ensures Distance8(x, x) == 0
  {
  }

  class FaultBox {
    const slots: array<Fault>
    var write: nat
    var read: nat

    ghost predicate Valid()
      reads this
    {
      slots.Length == SLOTS && write < 256 && read < 256 && Distance8(write, read) <= SLOTS
    }

    ghost function Waits(): seq<Fault>
      requires Valid()
      reads this, slots
    {
      Pending(slots[..], read, Distance8(write, read))
    }

    constructor ()
      ensures Valid() && fresh(slots) && Waits() == []
    {
      slots := new Fault[SLOTS](_ => BLANK);
      write, read := 0, 0;
    }

    method ReportFault(f: Fault) returns (accepted: bool)
      requires Valid()
      modifies this`write, slots
      ensures Valid() && accepted == (f.detail != {})
      ensures Waits() == if accepted && |old(Waits())| < SLOTS then old(Waits()) + [f] else old(Waits())
    {
      if f.detail == {} { return false; }
      var used := (write + 256 - read) % 256;
      if used >= SLOTS { return true; }
      PendingPut(slots[..], write, read, f);
      ghost var put := slots[..][write % SLOTS := f];
      slots[write % SLOTS] := f;
      assert slots[..] == put;
      write := (write + 1) % 256;
      return true;
    }

    method TakeFaults() returns (any: bool, detail: set<nat>, stampUs: nat)
      requires Valid()
      modifies this`read
      ensures Valid() && Waits() == []
      ensures any == (old(Waits()) != []) && detail == Merged(old(Waits())) && stampUs == Oldest(old(Waits()))
    {
      hide Pending, Next8, Merged, Oldest, Distance8;
      detail, stampUs := {}, 0;
      var count := 0;
      MergedNone();
      ghost var all := Waits();
      while read != write
        invariant Valid() && count <= |all| && Waits() == all[count..]
        invariant detail + Merged(all[count..]) == Merged(all) && stampUs == (if count == 0 then 0 else Oldest(all))
        decreases Distance8(write, read)
      {
        PendingTake(slots[..], write, read);
        var event := slots[read % SLOTS];
        assert all[count..] == [all[count]] + all[count + 1..] && all[count] == event;
        MergedFront(event, all[count + 1..]);
        read := Next8(read);
        detail := detail + event.detail;
        if count == 0 { stampUs := event.stampUs; }
        count := count + 1;
      }
      NoDistance(read);
      assert all[count..] == [];
      any := count != 0;
    }
  }
}
