/** The byte transport of User/usb_cdc_transport.c: a receive ring filled by an interrupt, a line
    assembler, and a bounded queue of responses sent one at a time. */
module UsbTransport {

  type byte = x: nat | x < 256

  const CR: byte := 13
  const LF: byte := 10
  const RING: nat := 512
  const LINE_MAX: nat := 191
  const QUEUE_DEPTH: nat := 8
  const MESSAGE_MAX: nat := 512

  predicate Ends(b: byte) {
    b == CR || b == LF
  }

  // ----- What a byte stream means -----

  /** A completed line handed to the command handler, or a complaint about one that was too long. */
  datatype Report = Line(text: seq<byte>) | Overlong

  /** The unfinished last line of a stream. */
  function Tail(s: seq<byte>): seq<byte> {
    if s == [] then [] else if Ends(s[|s| - 1]) then [] else Tail(s[..|s| - 1]) + [s[|s| - 1]]
  }

  function ReportsOf(line: seq<byte>): seq<Report> {
    if line == [] then [] else if |line| > LINE_MAX then [Overlong] else [Line(line)]
  }

  /** Splits on CR and LF, dropping empty lines and flagging those over 191 bytes. */
  function Reports(s: seq<byte>): seq<Report> {
    if s == [] then []
    else Reports(s[..|s| - 1]) + if Ends(s[|s| - 1]) then ReportsOf(Tail(s[..|s| - 1])) else []
  }

  // ----- The line assembler -----

  datatype Assembler = Assembler(line: seq<byte>, discarding: bool)

  function Consumed(a: Assembler, b: byte): (Assembler, seq<Report>) {
    if Ends(b) then
      if a.discarding then (Assembler([], false), [Overlong])
      else if |a.line| > 0 then (Assembler([], false), [Line(a.line)])
      else (a, [])
    else if a.discarding then (a, [])
    else if |a.line| >= LINE_MAX then (a.(discarding := true), [])
    else (a.(line := a.line + [b]), [])
  }

  /** The assembler after a stream: the unfinished line, or the fact that it is already too long. */
  predicate Holds(a: Assembler, s: seq<byte>) {
    if |Tail(s)| > LINE_MAX then a.discarding else a == Assembler(Tail(s), false)
  }

  /** Byte by byte, the assembler computes exactly the split of the stream. */
  lemma ConsumeIsSplit(a: Assembler, s: seq<byte>, b: byte)
    requires Holds(a, s)
    ensures Holds(Consumed(a, b).0, s + [b]) && Reports(s + [b]) == Reports(s) + Consumed(a, b).1
  {
    assert (s + [b])[..|s|] == s;
  }

  // ----- Responses -----

  datatype Sent = Accepted | Busy | Failed

  /** What the handler answers for a line: an error, or a text (possibly empty). */
  datatype Answer = Refused | Text(text: seq<byte>)

  type Handler = seq<byte> -> Answer

  const ERR_COMMAND: seq<byte>
    := [101, 114, 114, 32, 99, 111, 109, 109, 97, 110, 100]
  const ERR_TOO_LONG: seq<byte>
    := [101, 114, 114, 32, 108, 105, 110, 101, 45, 116, 111, 111, 45, 108, 111, 110, 103]
  const OK_TEXT: seq<byte> := [111, 107]

  function ResponseTo(r: Report, handler: Handler): seq<byte> {
    match r
    case Overlong => ERR_TOO_LONG
    case Line(text) => match handler(text) case Refused => ERR_COMMAND case Text(t) => if t == [] then OK_TEXT else t
  }

  /** Ring contents, assembler and response queue, with the statistics counters. */
  datatype Transport = Transport(pending: seq<byte>, assembler: Assembler, queue: seq<seq<byte>>,
                                 receivedBytes: nat, droppedBytes: nat, droppedResponses: nat, overlongLines: nat, busy: nat, errors: nat)

  function Queued(t: Transport, text: seq<byte>): (Transport, bool) {
    if |t.queue| >= QUEUE_DEPTH || |text| + 2 > MESSAGE_MAX then (t.(droppedResponses := t.droppedResponses + 1), false)
    else (t.(queue := t.queue + [text + [CR, LF]]), true)
  }

  /** A packet is taken whole or not at all; one slot of the ring always stays free. */
  function Received(t: Transport, packet: seq<byte>): (Transport, bool) {
    if |t.pending| + |packet| > RING - 1 then (t.(droppedBytes := t.droppedBytes + |packet|), false)
    else (t.(pending := t.pending + packet, receivedBytes := t.receivedBytes + |packet|), true)
  }

  function Answered(t: Transport, reports: seq<Report>, handler: Handler): Transport
    requires |reports| <= 1
  {
    if reports == [] then t
    else
      var u := if reports[0].Overlong? then t.(overlongLines := t.overlongLines + 1) else t;
      Queued(u, ResponseTo(reports[0], handler)).0
  }

  lemma OneReport(a: Assembler, b: byte)
    ensures |Consumed(a, b).1| <= 1
  {
  }

  function TakenOne(t: Transport, handler: Handler): Transport
    requires t.pending != []
  {
    var (a, reports) := Consumed(t.assembler, t.pending[0]);
    OneReport(t.assembler, t.pending[0]);
    Answered(t.(pending := t.pending[1..], assembler := a), reports, handler)
  }

  function Transmitted(t: Transport, outcome: Sent): Transport {
    if t.queue == [] then t
    else match outcome
      case Accepted => t.(queue := t.queue[1..])
      case Busy => t.(busy := t.busy + 1)
      case Failed => t.(queue := t.queue[1..], errors := t.errors + 1)
  }

  /** A service call that no interrupt disturbs: everything pending, then one transmission. */
  function Drained(t: Transport, handler: Handler): Transport
    decreases |t.pending|
  {
    if t.pending == [] then t
    else
      TakenKeepsPending(t, handler);
      Drained(TakenOne(t, handler), handler)
  }

  lemma TakenKeepsPending(t: Transport, handler: Handler)
    requires t.pending != []
    ensures TakenOne(t, handler).pending == t.pending[1..]
  {
  }

  // ----- Runs -----

  /** Receives may interrupt a service call between any two bytes. */
  datatype Op = Receive(packet: seq<byte>) | TakeOne | Transmit(outcome: Sent) | QueueLine(text: seq<byte>)

  function Do(t: Transport, op: Op, handler: Handler): Transport {
    match op
    case Receive(packet) => Received(t, packet).0
    case TakeOne => if t.pending == [] then t else TakenOne(t, handler)
    case Transmit(outcome) => Transmitted(t, outcome)
    case QueueLine(text) => Queued(t, text).0
  }

  const START := Transport([], Assembler([], false), [], 0, 0, 0, 0, 0, 0)

  function Run(ops: seq<Op>, handler: Handler): Transport {
    if ops == [] then START else Do(Run(ops[..|ops| - 1], handler), ops[|ops| - 1], handler)
  }

  /** Concatenation of the accepted packets. */
  function Stream(ops: seq<Op>, handler: Handler): seq<byte> {
    if ops == [] then []
    else
      var t, s := Run(ops[..|ops| - 1], handler), Stream(ops[..|ops| - 1], handler);
      match ops[|ops| - 1] case Receive(packet) => if Received(t, packet).1 then s + packet else s case _ => s
  }

  /** Bytes taken out of the ring, and reports produced, so far. */
  function Taken(ops: seq<Op>, handler: Handler): seq<byte> {
    if ops == [] then []
    else
      var t, s := Run(ops[..|ops| - 1], handler), Taken(ops[..|ops| - 1], handler);
      if ops[|ops| - 1].TakeOne? && t.pending != [] then s + [t.pending[0]] else s
  }

  function Dispatched(ops: seq<Op>, handler: Handler): seq<Report> {
    if ops == [] then []
    else
      var t, s := Run(ops[..|ops| - 1], handler), Dispatched(ops[..|ops| - 1], handler);
      if ops[|ops| - 1].TakeOne? && t.pending != [] then s + Consumed(t.assembler, t.pending[0]).1 else s
  }

  lemma AnsweredKeeps(t: Transport, reports: seq<Report>, handler: Handler)
    requires |reports| <= 1
    ensures Answered(t, reports, handler).pending == t.pending && Answered(t, reports, handler).assembler == t.assembler
  {
  }

  /** Whatever the packet boundaries and however service calls interleave with the interrupt, the
      reports are the split of the bytes taken, which with the pending ones are the accepted stream. */
  lemma {:induction false} ReportsFollowStream(ops: seq<Op>, handler: Handler)
    ensures Taken(ops, handler) + Run(ops, handler).pending == Stream(ops, handler)
    ensures |Run(ops, handler).pending| <= RING - 1
    ensures Holds(Run(ops, handler).assembler, Taken(ops, handler))
    ensures Dispatched(ops, handler) == Reports(Taken(ops, handler))
  {
    hide Holds, Reports, Consumed, Do, Received;
    if ops == [] {
      NothingYet();
    } else {
      var before, op := ops[..|ops| - 1], ops[|ops| - 1];
      ReportsFollowStream(before, handler);
      var t := Run(before, handler);
      if op.TakeOne? && t.pending != [] {
        TakesOne(t, handler);
        ConsumeIsSplit(t.assembler, Taken(before, handler), t.pending[0]);
        Shifted(Taken(before, handler), t.pending);
      } else {
        TakesNone(t, op, handler);
        if op.Receive? { assert Taken(before, handler) + (t.pending + op.packet) == (Taken(before, handler) + t.pending) + op.packet; }
        assert t.pending + [] == t.pending;
      }
    }
  }

  lemma Shifted(s: seq<byte>, pending: seq<byte>)
    requires pending != []
    ensures (s + [pending[0]]) + pending[1..] == s + pending
  {
  }

  lemma NothingYet()
    ensures Holds(START.assembler, []) && Reports([]) == []
  {
  }

  lemma TakesOne(t: Transport, handler: Handler)
    requires t.pending != []
    ensures var u := Do(t, TakeOne, handler); u.pending == t.pending[1..] && u.assembler == Consumed(t.assembler, t.pending[0]).0
  {
    var (a, reports) := Consumed(t.assembler, t.pending[0]);
    OneReport(t.assembler, t.pending[0]);
    AnsweredKeeps(t.(pending := t.pending[1..], assembler := a), reports, handler);
    hide Consumed, Answered;
  }

  lemma TakesNone(t: Transport, op: Op, handler: Handler)
    requires !op.TakeOne? || t.pending == []
    ensures var u := Do(t, op, handler);
            && u.assembler == t.assembler
            && u.pending == t.pending + (if op.Receive? && Received(t, op.packet).1 then op.packet else [])
            && (|t.pending| <= RING - 1 ==> |u.pending| <= RING - 1)
  {
  }

  /** Two histories that accepted the same bytes and have taken all of them dispatched the same. */
  lemma BoundariesDoNotMatter(a: seq<Op>, b: seq<Op>, handler: Handler)
    requires Stream(a, handler) == Stream(b, handler)
    requires Run(a, handler).pending == [] && Run(b, handler).pending == []
    ensures Dispatched(a, handler) == Dispatched(b, handler) == Reports(Stream(a, handler))
    ensures Run(a, handler).assembler.discarding == Run(b, handler).assembler.discarding
    ensures !Run(a, handler).assembler.discarding ==> Run(a, handler).assembler == Run(b, handler).assembler
  {
    ReportsFollowStream(a, handler);
    ReportsFollowStream(b, handler);
    assert Taken(a, handler) + [] == Taken(a, handler) && Taken(b, handler) + [] == Taken(b, handler);
    hide Run, Stream, Taken, Dispatched, Reports;
  }

  // ----- Transmission order -----

  /** Messages that entered the queue, in order. */
  function Entered(ops: seq<Op>, handler: Handler): seq<seq<byte>> {
    if ops == [] then []
    else
      var t, u := Run(ops[..|ops| - 1], handler), Run(ops, handler);
      Entered(ops[..|ops| - 1], handler) + if |u.queue| > |t.queue| then [u.queue[|u.queue| - 1]] else []
  }

  /** Messages that left the queue, with the answer that removed them. */
  function Left(ops: seq<Op>, handler: Handler): seq<(seq<byte>, Sent)> {
    if ops == [] then []
    else
      var t, op := Run(ops[..|ops| - 1], handler), ops[|ops| - 1];
      Left(ops[..|ops| - 1], handler) + if op.Transmit? && t.queue != [] && !op.outcome.Busy? then [(t.queue[0], op.outcome)] else []
  }

  function Messages(left: seq<(seq<byte>, Sent)>): seq<seq<byte>> {
    if left == [] then [] else Messages(left[..|left| - 1]) + [left[|left| - 1].0]
  }

  /** The lines the host received: those whose transmission was accepted. */
  function Host(ops: seq<Op>, handler: Handler): seq<seq<byte>> {
    if ops == [] then []
    else
      var t, op := Run(ops[..|ops| - 1], handler), ops[|ops| - 1];
      Host(ops[..|ops| - 1], handler) + if op.Transmit? && t.queue != [] && op.outcome.Accepted? then [t.queue[0]] else []
  }

  /** How many messages a transmission removed from the queue. */
  function Departed(ops: seq<Op>, handler: Handler): nat {
    if ops == [] then 0
    else
      var t, op := Run(ops[..|ops| - 1], handler), ops[|ops| - 1];
      Departed(ops[..|ops| - 1], handler) + if op.Transmit? && t.queue != [] && !op.outcome.Busy? then 1 else 0
  }

  /** Which of them, counted from zero, were answered ERROR. */
  function Lost(ops: seq<Op>, handler: Handler): set<nat> {
    if ops == [] then {}
    else
      var t, op := Run(ops[..|ops| - 1], handler), ops[|ops| - 1];
      Lost(ops[..|ops| - 1], handler)
      + if op.Transmit? && t.queue != [] && op.outcome.Failed? then {Departed(ops[..|ops| - 1], handler)} else {}
  }

  /** One step adds at most one message at the back. */
  lemma QueueGrowsByOne(t: Transport, op: Op, handler: Handler)
    ensures var u := Do(t, op, handler);
            || (|u.queue| == |t.queue| + 1 && u.queue[..|t.queue|] == t.queue && !op.Transmit?)
            || (u.queue == t.queue && (!op.Transmit? || t.queue == [] || op.outcome.Busy?))
            || (op.Transmit? && t.queue != [] && !op.outcome.Busy? && u.queue == t.queue[1..])
  {
    hide Consumed, ResponseTo;
    if op.TakeOne? && t.pending != [] { OneReport(t.assembler, t.pending[0]); }
  }

  /** Nothing is reordered or duplicated: what left the queue, followed by what waits, is what
      entered it. */
  lemma {:induction false} QueueInOrder(ops: seq<Op>, handler: Handler)
    ensures Messages(Left(ops, handler)) + Run(ops, handler).queue == Entered(ops, handler)
    ensures |Run(ops, handler).queue| <= QUEUE_DEPTH
    ensures forall k | 0 <= k < |Left(ops, handler)| :: !Left(ops, handler)[k].1.Busy?
  {
    hide Do, Messages;
    if ops == [] {
      NoMessages();
    } else {
      var before, op := ops[..|ops| - 1], ops[|ops| - 1];
      QueueInOrder(before, handler);
      var t, u, left := Run(before, handler), Run(ops, handler), Left(before, handler);
      QueueGrowsByOne(t, op, handler);
      QueueBounded(t, op, handler);
      if op.Transmit? && t.queue != [] && !op.outcome.Busy? {
        OneLeaves(left, t.queue, op.outcome);
      } else {
        assert left + [] == left;
        if |u.queue| > |t.queue| { assert Messages(left) + u.queue == (Messages(left) + t.queue) + [u.queue[|t.queue|]]; }
      }
    }
  }

  lemma NoMessages()
    ensures Messages([]) == []
  {
  }

  lemma OneLeaves(left: seq<(seq<byte>, Sent)>, queue: seq<seq<byte>>, outcome: Sent)
    requires queue != []
    ensures Messages(left + [(queue[0], outcome)]) + queue[1..] == Messages(left) + queue
  {
    assert (left + [(queue[0], outcome)])[..|left|] == left;
  }

  lemma QueueBounded(t: Transport, op: Op, handler: Handler)
    requires |t.queue| <= QUEUE_DEPTH
    ensures |Do(t, op, handler).queue| <= QUEUE_DEPTH
  {
    hide Consumed, ResponseTo;
    if op.TakeOne? && t.pending != [] { OneReport(t.assembler, t.pending[0]); }
  }

  /** `host` is `entered` up to position n minus the positions in `lost`; what follows still waits. */
  ghost predicate MinusLost(host: seq<seq<byte>>, entered: seq<seq<byte>>, n: nat, lost: set<nat>, queue: seq<seq<byte>>, at: seq<nat>) {
    && n <= |entered| && entered[n..] == queue && |at| == |host|
    && (forall i | 0 <= i < |at| :: at[i] < n && host[i] == entered[at[i]])
    && (forall i, j | 0 <= i < j < |at| :: at[i] < at[j])
    && (forall p: nat | p < n :: p in at <==> p !in lost)
    && (forall p | p in lost :: p < n)
  }

  lemma OneEnters(host: seq<seq<byte>>, entered: seq<seq<byte>>, n: nat, lost: set<nat>, queue: seq<seq<byte>>, at: seq<nat>, m: seq<byte>)
    requires MinusLost(host, entered, n, lost, queue, at)
    ensures MinusLost(host, entered + [m], n, lost, queue + [m], at)
  {
    assert (entered + [m])[n..] == entered[n..] + [m];
  }

  lemma OneArrives(host: seq<seq<byte>>, entered: seq<seq<byte>>, n: nat, lost: set<nat>, queue: seq<seq<byte>>, at: seq<nat>)
    requires MinusLost(host, entered, n, lost, queue, at) && queue != []
    ensures MinusLost(host + [queue[0]], entered, n + 1, lost, queue[1..], at + [n])
  {
    assert entered[n] == queue[0] && entered[n + 1..] == queue[1..];
    assert forall p: nat :: p in at + [n] <==> p in at || p == n;
  }

  lemma OneLost(host: seq<seq<byte>>, entered: seq<seq<byte>>, n: nat, lost: set<nat>, queue: seq<seq<byte>>, at: seq<nat>)
    requires MinusLost(host, entered, n, lost, queue, at) && queue != []
    ensures MinusLost(host, entered, n + 1, lost + {n}, queue[1..], at)
  {
    assert entered[n + 1..] == queue[1..];
  }

  /** What the host received is what was queued, in order, minus exactly the positions answered ERROR,
      up to what still waits: `at` names the queued position of each received line. */
  lemma {:induction false} DeliveredMinusErrors(ops: seq<Op>, handler: Handler) returns (at: seq<nat>)
    ensures MinusLost(Host(ops, handler), Entered(ops, handler), Departed(ops, handler), Lost(ops, handler), Run(ops, handler).queue, at)
  {
    if ops == [] {
      at := [];
    } else {
      var before, op := ops[..|ops| - 1], ops[|ops| - 1];
      at := DeliveredMinusErrors(before, handler);
      var t, u := Run(before, handler), Run(ops, handler);
      QueueGrowsByOne(t, op, handler);
      var host, entered, n, lost := Host(before, handler), Entered(before, handler), Departed(before, handler), Lost(before, handler);
      hide Do, MinusLost;
      assert host + [] == host && entered + [] == entered && lost + {} == lost;
      if op.Transmit? && t.queue != [] && op.outcome.Accepted? {
        OneArrives(host, entered, n, lost, t.queue, at);
        at := at + [n];
      } else if op.Transmit? && t.queue != [] && op.outcome.Failed? {
        OneLost(host, entered, n, lost, t.queue, at);
      } else if |u.queue| > |t.queue| {
        var m := u.queue[|u.queue| - 1];
        assert u.queue == t.queue + [m];
        OneEnters(host, entered, n, lost, t.queue, at, m);
      }
    }
  }
}
