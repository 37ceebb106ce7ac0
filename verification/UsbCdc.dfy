/** The static storage behind the transport: the receive ring, the line buffer and the response
    queue of User/usb_cdc_transport.c, refining module UsbTransport. */
module UsbCdc {
  import opened UsbTransport

  // ----- Receive ring -----

  function At(read: nat, i: nat): nat {
    (read + i) % RING
  }

  /** The n bytes from a read index on. */
  function Window(ring: seq<byte>, read: nat, n: nat): (w: seq<byte>)
    requires |ring| == RING
    ensures |w| == n
  {
    seq(n, i requires 0 <= i < n => ring[At(read, i)])
  }

  function Used(write: nat, read: nat): nat {
    (write + RING - read) % RING
  }

  lemma WindowPut(ring: seq<byte>, read: nat, n: nat, b: byte)
    requires |ring| == RING && read < RING && n < RING - 1
    ensures Window(ring[At(read, n) := b], read, n + 1) == Window(ring, read, n) + [b]
  {
    forall i | 0 <= i < n ensures At(read, i) != At(read, n) {
      assert At(read, i) != At(read, n);
    }
  }

  lemma WindowTake(ring: seq<byte>, read: nat, n: nat)
    requires |ring| == RING && read < RING && 0 < n < RING
    ensures Window(ring, read, n) == [ring[read]] + Window(ring, At(read, 1), n - 1)
  {
    var next := At(read, 1);
    forall i | 0 <= i < n - 1 ensures At(next, i) == At(read, i + 1) {
      Shifted(read, i);
    }
    assert At(read, 0) == read;
  }

  lemma Shifted(read: nat, i: nat)
    requires read < RING
    ensures At(At(read, 1), i) == At(read, i + 1)
  {
  }

  lemma UsedRules(write: nat, read: nat)
    requires write < RING && read < RING
    ensures Used(write, read) < RING && At(read, Used(write, read)) == write
    ensures (read + RING - write - 1) % RING == RING - 1 - Used(write, read)
    ensures Used(write, read) == 0 <==> write == read
    ensures Used(write, read) < RING - 1 ==> Used(At(write, 1), read) == Used(write, read) + 1
    ensures write != read ==> Used(write, At(read, 1)) == Used(write, read) - 1
  {
  }

  class RxRing {
    const ring: array<byte>
    var write: nat
    var read: nat

    ghost predicate Valid()
      reads this
    {
      ring.Length == RING && write < RING && read < RING
    }

    ghost function Contents(): seq<byte>
      requires Valid()
      reads this, ring
    {
      Window(ring[..], read, Used(write, read))
    }

    constructor ()
      ensures Valid() && fresh(ring) && Contents() == []
    {
      ring := new byte[RING](_ => 0);
      write, read := 0, 0;
    }

    method Receive(packet: seq<byte>) returns (ok: bool)
      requires Valid()
      modifies this`write, ring
      ensures Valid() && ok == (|old(Contents())| + |packet| <= RING - 1)
      ensures Contents() == if ok then old(Contents()) + packet else old(Contents())
    {
      UsedRules(write, read);
      var space := (read + RING - write - 1) % RING;
      if |packet| > space { return false; }
      var index := write;
      var k := 0;
      ghost var n := Used(write, read);
      ghost var before := Contents();
      assert before + [] == before && packet[..0] == [];
      while k < |packet|
        invariant 0 <= k <= |packet| && index < RING && n + |packet| < RING
        invariant index == At(read, n + k) && Window(ring[..], read, n + k) == before + packet[..k]
        invariant n + k == Used(index, read)
      {
        WindowPut(ring[..], read, n + k, packet[k]);
        ghost var put := ring[..][index := packet[k]];
        ring[index] := packet[k];
        assert ring[..] == put;
        UsedRules(index, read);
        index := (index + 1) % RING;
        UsedRules(index, read);
        k := k + 1;
        assert packet[..k] == packet[..k - 1] + [packet[k - 1]];
      }
      write := index;
      assert packet[..|packet|] == packet;
      return true;
    }

    method Pop() returns (b: byte)
      requires Valid() && Contents() != []
      modifies this`read
      ensures Valid() && [b] + Contents() == old(Contents())
    {
      UsedRules(write, read);
      WindowTake(ring[..], read, Used(write, read));
      b := ring[read];
      read := (read + 1) % RING;
    }

    method IsEmpty() returns (empty: bool)
      requires Valid()
      ensures empty == (Contents() == [])
    {
      UsedRules(write, read);
      return read == write;
    }
  }

  // ----- Line buffer -----

  class LineBuffer {
    const line: array<byte>
    var length: nat
    var discarding: bool

    ghost predicate Valid()
      reads this
    {
      line.Length == LINE_MAX + 1 && length <= LINE_MAX
    }

    ghost function Model(): Assembler
      requires Valid()
      reads this, line
    {
      Assembler(line[..length], discarding)
    }

    constructor ()
      ensures Valid() && fresh(line) && Model() == Assembler([], false)
    {
      line := new byte[LINE_MAX + 1](_ => 0);
      length, discarding := 0, false;
    }

    /** Consumes one byte; the report is a completed line or the end of one that was too long. */
    method Consume(b: byte) returns (reports: seq<Report>)
      requires Valid()
      modifies this, line
      ensures Valid() && (Model(), reports) == Consumed(old(Model()), b)
    {
      if b == CR || b == LF {
        if discarding {
          discarding, length := false, 0;
          return [Overlong];
        }
        if length > 0 {
          reports := [Line(line[..length])];
          length := 0;
          return;
        }
        return [];
      }
      if discarding { return []; }
      if length >= LINE_MAX {
        discarding := true;
        return [];
      }
      ghost var before := line[..length];
      line[length] := b;
      length := length + 1;
      assert line[..length] == before + [b];
      return [];
    }
  }

  // ----- Response queue -----

  function Slot(read: nat, i: nat): nat {
    (read + i) % QUEUE_DEPTH
  }

  function Stored(slots: seq<seq<byte>>, read: nat, n: nat): seq<seq<byte>>
    requires |slots| == QUEUE_DEPTH
  {
    seq(n, i requires 0 <= i < n => slots[Slot(read, i)])
  }

  lemma SlotShifted(read: nat, i: nat)
    ensures Slot(Slot(read, 1), i) == Slot(read, i + 1)
  {
  }

  lemma StoredDrop(slots: seq<seq<byte>>, read: nat, n: nat)
    requires |slots| == QUEUE_DEPTH && n > 0
    ensures Stored(slots, read, n)[1..] == Stored(slots, Slot(read, 1), n - 1)
  {
    hide Slot;
    var next := Slot(read, 1);
    forall i | 0 <= i < n - 1 ensures Slot(next, i) == Slot(read, i + 1) {
      SlotShifted(read, i);
    }
  }

  class TxQueue {
    const slots: array<seq<byte>>
    var write: nat
    var read: nat
    var count: nat

    ghost predicate Valid()
      reads this
    {
      slots.Length == QUEUE_DEPTH && read < QUEUE_DEPTH && count <= QUEUE_DEPTH && write == Slot(read, count)
    }

    ghost function Contents(): seq<seq<byte>>
      requires Valid()
      reads this, slots
    {
      Stored(slots[..], read, count)
    }

    constructor ()
      ensures Valid() && fresh(slots) && Contents() == []
    {
      slots := new seq<byte>[QUEUE_DEPTH](_ => []);
      write, read, count := 0, 0, 0;
    }

    /** Queues a line with its terminator, unless the queue is full or the line too long. */
    method Put(text: seq<byte>) returns (ok: bool)
      requires Valid()
      modifies this`write, this`count, slots
      ensures Valid() && ok == (|old(Contents())| < QUEUE_DEPTH && |text| + 2 <= MESSAGE_MAX)
      ensures Contents() == if ok then old(Contents()) + [text + [CR, LF]] else old(Contents())
    {
      if count >= QUEUE_DEPTH || |text| + 2 > MESSAGE_MAX { return false; }
      ghost var before := Contents();
      ghost var put := slots[..][write := text + [CR, LF]];
      slots[write] := text + [CR, LF];
      assert slots[..] == put;
      write := (write + 1) % QUEUE_DEPTH;
      count := count + 1;
      assert Contents() == before + [text + [CR, LF]];
      return true;
    }

    /** Drops the oldest message. */
    method Drop()
      requires Valid() && count > 0
      modifies this`read, this`count
      ensures Valid() && Contents() == old(Contents())[1..]
    {
      StoredDrop(slots[..], read, count);
      SlotShifted(read, count - 1);
      hide Stored;
      read := (read + 1) % QUEUE_DEPTH;
      count := count - 1;
    }
  }

  // ----- The transport -----

  class CdcTransport {
    const rx: RxRing
    const lines: LineBuffer
    const tx: TxQueue
    const handler: Handler
    var receivedBytes: nat
    var droppedBytes: nat
    var droppedResponses: nat
    var overlongLines: nat
    var busy: nat
    var errors: nat

    ghost predicate Valid()
      reads this, rx, lines, tx
    {
      && rx.Valid() && lines.Valid() && tx.Valid()
      && (rx.ring as object) != lines.line && (rx.ring as object) != tx.slots && (lines.line as object) != tx.slots
    }

    ghost function Model(): Transport
      requires Valid()
      reads this, rx, lines, tx, rx.ring, lines.line, tx.slots
    {
      Transport(rx.Contents(), lines.Model(), tx.Contents(), receivedBytes, droppedBytes, droppedResponses, overlongLines, busy, errors)
    }

    constructor (handler: Handler)
      ensures Valid() && Model() == START && this.handler == handler
    {
      rx := new RxRing();
      lines := new LineBuffer();
      tx := new TxQueue();
      this.handler := handler;
      receivedBytes, droppedBytes, droppedResponses, overlongLines, busy, errors := 0, 0, 0, 0, 0, 0;
    }

    method Receive(packet: seq<byte>) returns (ok: bool)
      requires Valid()
      modifies this, rx, rx.ring
      ensures Valid() && (Model(), ok) == Received(old(Model()), packet)
    {
      ok := rx.Receive(packet);
      if ok { receivedBytes := receivedBytes + |packet|; } else { droppedBytes := droppedBytes + |packet|; }
    }

    method QueueLine(text: seq<byte>) returns (ok: bool)
      requires Valid()
      modifies this, tx, tx.slots
      ensures Valid() && (Model(), ok) == Queued(old(Model()), text)
    {
      ok := tx.Put(text);
      if !ok { droppedResponses := droppedResponses + 1; }
    }

    method ConsumeOne()
      requires Valid() && rx.Contents() != []
      modifies this, rx, lines, lines.line, tx, tx.slots
      ensures Valid() && Model() == TakenOne(old(Model()), handler)
    {
      ghost var before := Model();
      var b := rx.Pop();
      assert before.pending[0] == b && before.pending[1..] == rx.Contents();
      var reports := lines.Consume(b);
      OneReport(before.assembler, b);
      if reports != [] {
        if reports[0].Overlong? { overlongLines := overlongLines + 1; }
        var _ := QueueLine(ResponseTo(reports[0], handler));
      }
    }

    method TransmitOne(outcome: Sent)
      requires Valid()
      modifies this, tx
      ensures Valid() && Model() == Transmitted(old(Model()), outcome)
    {
      if tx.count > 0 {
        match outcome
        case Accepted => tx.Drop();
        case Busy => busy := busy + 1;
        case Failed =>
          errors := errors + 1;
          tx.Drop();
      }
    }

    /** A whole service call: the ring is drained, then one transmission is tried. */
    method Service(outcome: Sent)
      requires Valid()
      modifies this, rx, lines, lines.line, tx, tx.slots
      ensures Valid() && Model() == Transmitted(Drained(old(Model()), handler), outcome)
    {
      var empty := rx.IsEmpty();
      while !empty
        invariant Valid() && empty == (rx.Contents() == [])
        invariant Drained(Model(), handler) == Drained(old(Model()), handler)
        decreases |rx.Contents()|
      {
        ghost var before := Model();
        TakenKeepsPending(before, handler);
        ConsumeOne();
        empty := rx.IsEmpty();
      }
      TransmitOne(outcome);
    }
  }
}
