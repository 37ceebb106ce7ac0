/** The refresh statistics of Ui/lv_port_disp.c: publications under a 32-bit sequence counter, a
    reader that retries, and the ownership of a flush in flight. */
module SeqLock {
  import opened Common

  /** What one publication makes visible. */
  datatype Status = Status(lastBytes: nat, durationMs: nat, fpsTenths: nat, completed: nat, failed: nat)

  const BLANK := Status(0, 0, 0, 0, 0)

  function Next32(x: nat): nat {
    (x + 1) % U32_RANGE
  }

  function AfterSuccess(s: Status, bytes: nat, duration: nat): Status {
    Status(bytes, duration, if duration != 0 then 10000 / duration else 0, Next32(s.completed), s.failed)
  }

  function AfterFailure(s: Status): Status {
    s.(failed := Next32(s.failed))
  }

  // ----- Interleaved accesses -----

  /** The five volatile fields, in the order the reader copies them. */
  function Field(s: Status, k: nat): nat
    requires k < 5
  {
    match k case 0 => s.lastBytes case 1 => s.durationMs case 2 => s.fpsTenths case 3 => s.completed case _ => s.failed
  }

  function WithField(s: Status, k: nat, v: nat): Status
    requires k < 5
  {
    match k
    case 0 => s.(lastBytes := v) case 1 => s.(durationMs := v) case 2 => s.(fpsTenths := v)
    case 3 => s.(completed := v) case _ => s.(failed := v)
  }

  /** A writer either rests, or has `todo` field writes left of a publication that leads to `goal`. */
  datatype Writer = Resting | Publishing(todo: seq<nat>, goal: Status)

  /** The reader is about to make access `pc`: 0 the first counter read, 1 to 5 the fields, 6 the
      second counter read. `at` remembers how many counter writes had happened at the first read. */
  datatype Reader = Reader(pc: nat, before: nat, copy: Status, at: nat)

  /** `steps` counts counter writes without wrap; the hardware counter is its remainder. */
  datatype System = System(steps: nat, fields: Status, writer: Writer, reader: Reader, published: seq<Status>)
  {
    function Counter(): nat {
      steps % U32_RANGE
    }
  }

  datatype Access =
    | BeginSuccess(bytes: nat, duration: nat)
    | BeginFailure
    | WriteField
    | EndPublish
    | Read

  /** One access of the writer or of the reader; writers are serialised. */
  function Step(s: System, a: Access): System {
    match a
    case BeginSuccess(bytes, duration) =>
      if s.writer.Publishing? then s
      else s.(steps := s.steps + 1, writer := Publishing([0, 1, 2, 3], AfterSuccess(s.fields, bytes, duration)))
    case BeginFailure =>
      if s.writer.Publishing? then s else s.(steps := s.steps + 1, writer := Publishing([4], AfterFailure(s.fields)))
    case WriteField =>
      if s.writer.Resting? || s.writer.todo == [] || s.writer.todo[0] >= 5 then s
      else s.(fields := WithField(s.fields, s.writer.todo[0], Field(s.writer.goal, s.writer.todo[0])),
              writer := s.writer.(todo := s.writer.todo[1..]))
    case EndPublish =>
      if s.writer.Resting? || s.writer.todo != [] then s
      else s.(steps := s.steps + 1, writer := Resting, published := s.published + [s.fields])
    case Read => s.(reader := Advance(s))
  }

  /** An odd or changed counter sends the reader back to its first access. */
  function Advance(s: System): Reader {
    var r := s.reader;
    if r.pc == 0 then
      if s.Counter() % 2 == 1 then r else Reader(1, s.Counter(), r.copy, s.steps)
    else if r.pc <= 5 then r.(pc := r.pc + 1, copy := WithField(r.copy, r.pc - 1, Field(s.fields, r.pc - 1)))
    else r.(pc := 0)
  }

  /** The access at which the reader returns its copy. */
  predicate Returns(s: System, a: Access) {
    a.Read? && s.reader.pc == 6 && s.Counter() == s.reader.before && s.Counter() % 2 == 0
  }

  const START := System(0, BLANK, Resting, Reader(0, 0, BLANK, 0), [BLANK])

  function Run(accesses: seq<Access>): System {
    if accesses == [] then START else Step(Run(accesses[..|accesses| - 1]), accesses[|accesses| - 1])
  }

  /** Fields a publication does not touch already have their goal value. */
  predicate Covered(w: Writer, f: Status) {
    w.Publishing? ==> (forall k | 0 <= k < |w.todo| :: w.todo[k] < 5)
                      && forall k | 0 <= k < 5 && k !in w.todo :: Field(f, k) == Field(w.goal, k)
  }

  /** Even counts are complete publications; the fields then hold the last one. */
  predicate WriterInv(s: System) {
    && (s.writer.Resting? <==> s.steps % 2 == 0)
    && |s.published| == s.steps / 2 + 1
    && (s.writer.Resting? ==> s.fields == s.published[|s.published| - 1])
    && Covered(s.writer, s.fields)
  }

  /** As long as no counter write happened since its first read, what the reader copied so far is
      part of the publication that was current then. */
  predicate ReaderInv(s: System) {
    && s.reader.pc <= 6 && s.reader.at <= s.steps
    && (s.reader.pc > 0 ==>
          && s.reader.at % 2 == 0 && s.reader.before == s.reader.at % U32_RANGE && s.reader.at / 2 < |s.published|
          && (s.steps == s.reader.at ==> forall k | 0 <= k < 5 && k < s.reader.pc - 1 ::
                Field(s.reader.copy, k) == Field(s.published[s.reader.at / 2], k)))
  }

  lemma FieldSet(s: Status, k: nat, v: nat)
    requires k < 5
    ensures forall j | 0 <= j < 5 :: Field(WithField(s, k, v), j) == if j == k then v else Field(s, j)
  {
  }

  lemma SameStatus(a: Status, b: Status)
    requires forall k | 0 <= k < 5 :: Field(a, k) == Field(b, k)
    ensures a == b
  {
    assert Field(a, 0) == Field(b, 0) && Field(a, 1) == Field(b, 1) && Field(a, 2) == Field(b, 2);
    assert Field(a, 3) == Field(b, 3) && Field(a, 4) == Field(b, 4);
  }

  lemma WriterKeepsInv(s: System, a: Access)
    requires WriterInv(s) && !a.Read?
    ensures WriterInv(Step(s, a))
  {
    if a.WriteField? && s.writer.Publishing? && s.writer.todo != [] {
      FieldSet(s.fields, s.writer.todo[0], Field(s.writer.goal, s.writer.todo[0]));
      assert s.writer.todo == [s.writer.todo[0]] + s.writer.todo[1..];
    }
    hide WithField;
  }

  lemma ReaderUnderWriter(s: System, a: Access)
    requires WriterInv(s) && ReaderInv(s) && !a.Read?
    ensures ReaderInv(Step(s, a))
  {
    hide WithField, Field, AfterSuccess, Covered;
  }

  lemma ReaderKeepsInv(s: System)
    requires WriterInv(s) && ReaderInv(s)
    ensures ReaderInv(Step(s, Read)) && WriterInv(Step(s, Read))
  {
    assert s.steps % U32_RANGE % 2 == s.steps % 2;
    if 1 <= s.reader.pc <= 5 { FieldSet(s.reader.copy, s.reader.pc - 1, Field(s.fields, s.reader.pc - 1)); }
    hide WithField, Field, Covered;
  }

  lemma {:induction false} RunKeepsInv(accesses: seq<Access>)
    ensures WriterInv(Run(accesses)) && ReaderInv(Run(accesses))
  {
    if accesses != [] {
      var s, a := Run(accesses[..|accesses| - 1]), accesses[|accesses| - 1];
      RunKeepsInv(accesses[..|accesses| - 1]);
      hide WriterInv, ReaderInv, Step;
      if a.Read? { ReaderKeepsInv(s); } else { WriterKeepsInv(s, a); ReaderUnderWriter(s, a); }
    }
  }

  /** However writers and reader interleave, access by access, a reader that returns without the
      counter having wrapped all the way round returns one whole publication: the latest one. */
  lemma ReaderReturnsPublication(accesses: seq<Access>)
    requires Returns(Run(accesses), Read)
    requires Run(accesses).steps - Run(accesses).reader.at < U32_RANGE
    ensures var s := Run(accesses); s.published != [] && s.reader.copy == s.published[|s.published| - 1]
  {
    var s := Run(accesses);
    RunKeepsInv(accesses);
    hide Run;
    assert s.steps == s.reader.at;
    SameStatus(s.reader.copy, s.published[s.reader.at / 2]);
  }

  // ----- Publishing and flush ownership -----

  datatype Transfer = TransferOk | TransferFailed

  /** What the panel driver does with a submitted rectangle. */
  datatype Begin = Rejected | Started | Finished(result: Transfer, atMs: nat)

  class RefreshRecord {
    var sequence: nat
    var status: Status
    var startedMs: nat
    var pendingBytes: nat
    var active: bool
    var lastChunk: bool
    var owned: bool
    var fault: bool
    /** Flushes asked for, and completions signalled to the graphics library. */
    var counts: (nat, nat)

    ghost predicate Valid()
      reads this
    {
      sequence < U32_RANGE && sequence % 2 == 0 && counts.0 == counts.1 + if owned then 1 else 0
    }

    constructor ()
      ensures Valid() && status == BLANK && !owned && !fault && counts == (0, 0)
    {
      sequence, status, startedMs, pendingBytes := 0, BLANK, 0, 0;
      active, lastChunk, owned, fault, counts := false, false, false, false, (0, 0);
    }

    method PublishSuccess(completedMs: nat)
      requires sequence % 2 == 0 && sequence < U32_RANGE
      modifies this`sequence, this`status, this`active, this`pendingBytes, this`lastChunk
      ensures status == AfterSuccess(old(status), old(pendingBytes), Elapsed32(completedMs, startedMs))
      ensures sequence == (old(sequence) + 2) % U32_RANGE && !active && pendingBytes == 0 && !lastChunk
    {
      var duration := Elapsed32(completedMs, startedMs);
      sequence := Next32(sequence);
      status := status.(lastBytes := pendingBytes);
      status := status.(durationMs := duration);
      status := status.(fpsTenths := if duration != 0 then 10000 / duration else 0);
      status := status.(completed := Next32(status.completed));
      sequence := Next32(sequence);
      active, pendingBytes, lastChunk := false, 0, false;
    }

    method PublishFailure()
      requires sequence % 2 == 0 && sequence < U32_RANGE
      modifies this`sequence, this`status, this`active, this`pendingBytes, this`lastChunk
      ensures status == AfterFailure(old(status))
      ensures sequence == (old(sequence) + 2) % U32_RANGE && !active && pendingBytes == 0 && !lastChunk
    {
      sequence := Next32(sequence);
      status := status.(failed := Next32(status.failed));
      sequence := Next32(sequence);
      active, pendingBytes, lastChunk := false, 0, false;
    }

    /** Completion of an owned transfer: the buffer goes back to the library exactly once. */
    method TransferDone(result: Transfer, atMs: nat)
      requires Valid()
      modifies this
      ensures Valid() && !owned && counts == (old(counts).0, old(counts).0)
      ensures fault == (old(fault) || result == TransferFailed)
      ensures status == if result == TransferFailed then AfterFailure(old(status))
                        else if old(active && lastChunk) then AfterSuccess(old(status), old(pendingBytes), Elapsed32(atMs, old(startedMs)))
                        else old(status)
    {
      var driver := owned;
      if result == TransferFailed {
        fault := true;
        PublishFailure();
      } else if active && lastChunk {
        PublishSuccess(atMs);
      }
      owned := false;
      if driver { counts := (counts.0, counts.1 + 1); }
    }

    /** Every flush is answered exactly once: at once when refused or finished, else on completion. */
    method Flush(acceptable: bool, bytes: nat, last: bool, nowMs: nat, begin: Begin)
      requires Valid() && !owned
      modifies this
      ensures Valid() && counts.0 == old(counts).0 + 1
      ensures owned <==> acceptable && !old(fault) && begin.Started?
      ensures !acceptable || old(fault) || begin.Rejected? ==> fault && status == AfterFailure(old(status))
      ensures owned ==> active && lastChunk == last && status == old(status)
      ensures owned ==> pendingBytes == (if old(active) then old(pendingBytes) else 0) + bytes
    {
      counts := (counts.0 + 1, counts.1);
      if !acceptable || fault {
        fault := true;
        PublishFailure();
        counts := (counts.0, counts.1 + 1);
        return;
      }
      if !active { active, startedMs, pendingBytes := true, nowMs, 0; }
      pendingBytes := pendingBytes + bytes;
      lastChunk := last;
      owned := true;
      match begin
      case Started =>
      case Finished(result, atMs) => TransferDone(result, atMs);
      case Rejected =>
        owned, fault := false, true;
        PublishFailure();
        counts := (counts.0, counts.1 + 1);
    }
  }
}
