/** The bounded store of terminal results the protocol engine could not take yet: a ring of four
    slots addressed by wrapping 8-bit sequence counters. */
module DeferredResults {
  import opened Common

  const CAPACITY: nat := 4

  /** Whether the protocol engine takes the n-th result it is ever offered. */
  type Engine = nat -> bool

  /** Results the engine took, results waiting behind them, and how often the engine was asked. */
  datatype Queue<T> = Queue(delivered: seq<T>, waiting: seq<T>, offers: nat)

  function Empty<T>(): Queue<T> {
    Queue([], [], 0)
  }

  /** Every result that fixed storage owns, in the order it was accepted. */
  function Accepted<T>(q: Queue<T>): seq<T> {
    q.delivered + q.waiting
  }

  predicate HasRoom<T>(q: Queue<T>) {
    |q.waiting| < CAPACITY
  }

  /** Submits behind everything that waits; the engine is only asked when nothing does. */
  function Submitted<T>(q: Queue<T>, x: T, engine: Engine): (Queue<T>, bool) {
    if q.waiting == [] && engine(q.offers) then (Queue(q.delivered + [x], [], q.offers + 1), true)
    else
      var p := if q.waiting == [] then q.(offers := q.offers + 1) else q;
      if HasRoom(p) then (p.(waiting := p.waiting + [x]), true) else (p, false)
  }

  /** Offers waiting results in order until the engine refuses one. */
  function Flushed<T>(q: Queue<T>, engine: Engine): Queue<T>
    decreases |q.waiting|
  {
    if q.waiting == [] then q
    else if engine(q.offers) then Flushed(Queue(q.delivered + [q.waiting[0]], q.waiting[1..], q.offers + 1), engine)
    else q.(offers := q.offers + 1)
  }

  /** A submission is accepted unless four results wait, and is then last in order. */
  lemma SubmitKeepsOrder<T>(q: Queue<T>, x: T, engine: Engine)
    ensures var (p, ok) := Submitted(q, x, engine);
            && (HasRoom(q) ==> ok)
            && (ok ==> Accepted(p) == Accepted(q) + [x]) && (!ok ==> p == q)
            && q.delivered <= p.delivered && (q.waiting != [] ==> p.delivered == q.delivered)
  {
    assert q.delivered + (q.waiting + [x]) == q.delivered + q.waiting + [x];
  }

  /** Flushing moves a prefix of what waits, loses nothing and reorders nothing. */
  lemma {:induction false} FlushKeepsOrder<T>(q: Queue<T>, engine: Engine)
    ensures var p := Flushed(q, engine);
            Accepted(p) == Accepted(q) && q.delivered <= p.delivered && |p.waiting| <= |q.waiting|
    decreases |q.waiting|
  {
    if q.waiting != [] && engine(q.offers) {
      var r := Queue(q.delivered + [q.waiting[0]], q.waiting[1..], q.offers + 1);
      FlushKeepsOrder(r, engine);
      assert Accepted(r) == Accepted(q);
    }
  }

  /** Any history of submissions and flushes. */
  datatype Op<T> = Submit(x: T) | Flush

  function Run<T>(q: Queue<T>, ops: seq<Op<T>>, engine: Engine): Queue<T> {
    if ops == [] then q
    else
      var p := Run(q, ops[..|ops| - 1], engine);
      match ops[|ops| - 1] case Submit(x) => Submitted(p, x, engine).0 case Flush => Flushed(p, engine)
  }

  /** The submissions of a history that were accepted, in order. */
  function Taken<T>(q: Queue<T>, ops: seq<Op<T>>, engine: Engine): seq<T> {
    if ops == [] then []
    else
      var p, earlier := Run(q, ops[..|ops| - 1], engine), Taken(q, ops[..|ops| - 1], engine);
      match ops[|ops| - 1] case Submit(x) => if Submitted(p, x, engine).1 then earlier + [x] else earlier case Flush => earlier
  }

  /** Whatever the engine accepts and refuses, delivered results followed by waiting ones are the
      accepted results in order, and never more than four wait. */
  lemma {:induction false} HistoryInOrder<T>(ops: seq<Op<T>>, engine: Engine)
    ensures Accepted(Run(Empty(), ops, engine)) == Taken(Empty(), ops, engine)
    ensures |Run(Empty(), ops, engine).waiting| <= CAPACITY
  {
    if ops != [] {
      HistoryInOrder(ops[..|ops| - 1], engine);
      var p := Run(Empty(), ops[..|ops| - 1], engine);
      match ops[|ops| - 1]
      case Submit(x) => SubmitKeepsOrder(p, x, engine);
      case Flush => FlushKeepsOrder(p, engine);
    }
  }

  // ----- The ring -----

  function Slot(read: nat, i: nat): nat {
    (read + i) % CAPACITY
  }

  /** The waiting results, oldest first, as they lie in the slots. */
  function Window<T>(slots: seq<T>, read: nat, n: nat): seq<T>
    requires |slots| == CAPACITY
  {
    seq(n, i requires 0 <= i < n => slots[Slot(read, i)])
  }

  lemma WindowPush<T>(slots: seq<T>, read: nat, write: nat, x: T)
    requires |slots| == CAPACITY && read < 256 && write < 256 && Distance8(write, read) < CAPACITY
    ensures Distance8((write + 1) % 256, read) == Distance8(write, read) + 1
    ensures Window(slots[write % CAPACITY := x], read, Distance8(write, read) + 1) == Window(slots, read, Distance8(write, read)) + [x]
  {
    var n := Distance8(write, read);
    assert Slot(read, n) == write % CAPACITY;
    forall i | 0 <= i < n ensures Slot(read, i) != write % CAPACITY {
    }
  }

  lemma WindowPop<T>(slots: seq<T>, read: nat, write: nat)
    requires |slots| == CAPACITY && read < 256 && write < 256 && read != write && Distance8(write, read) <= CAPACITY
    ensures Distance8(write, read) > 0 && Distance8(write, (read + 1) % 256) == Distance8(write, read) - 1
    ensures Window(slots, read, Distance8(write, read)) == [slots[read % CAPACITY]] + Window(slots, (read + 1) % 256, Distance8(write, read) - 1)
  {
    var n, next := Distance8(write, read), (read + 1) % 256;
    forall i | 0 <= i < n - 1 ensures Slot(next, i) == Slot(read, i + 1) {
    }
  }

  class Ring<T(0)> {
    const slots: array<T>
    const engine: Engine
    var read: nat
    var write: nat
    var offers: nat
    var delivered: seq<T>

    ghost predicate Valid()
      reads this
    {
      slots.Length == CAPACITY && read < 256 && write < 256 && Distance8(write, read) <= CAPACITY
    }

    ghost function Model(): Queue<T>
      requires Valid()
      reads this, slots
    {
      Queue(delivered, Window(slots[..], read, Distance8(write, read)), offers)
    }

    constructor (engine: Engine, start: nat)
      requires start < 256
      ensures Valid() && fresh(slots) && Model() == Empty() && this.engine == engine
    {
      slots := new T[CAPACITY];
      this.engine := engine;
      read, write, offers, delivered := start, start, 0, [];
    }

    method Count() returns (n: nat)
      requires Valid()
      ensures n == |Model().waiting|
    {
      n := (write + 256 - read) % 256;
    }

    method Offer(x: T) returns (taken: bool)
      requires Valid()
      modifies this`offers, this`delivered
      ensures Valid() && taken == engine(old(offers)) && offers == old(offers) + 1
      ensures delivered == if taken then old(delivered) + [x] else old(delivered)
    {
      taken := engine(offers);
      offers := offers + 1;
      if taken { delivered := delivered + [x]; }
    }

    method SubmitOrDefer(x: T) returns (stored: bool)
      requires Valid()
      modifies this, slots
      ensures Valid() && (Model(), stored) == Submitted(old(Model()), x, engine)
    {
      var waiting := Count();
      if waiting == 0 {
        var taken := Offer(x);
        if taken { return true; }
      }
      if waiting >= CAPACITY { return false; }
      WindowPush(slots[..], read, write, x);
      ghost var pushed := slots[..][write % CAPACITY := x];
      slots[write % CAPACITY] := x;
      assert slots[..] == pushed;
      write := (write + 1) % 256;
      return true;
    }

    method Flush() returns (flushed: bool)
      requires Valid()
      modifies this
      ensures Valid() && Model() == Flushed(old(Model()), engine)
      ensures flushed <==> delivered != old(delivered)
    {
      flushed := false;
      while read != write
        invariant Valid() && Flushed(Model(), engine) == Flushed(old(Model()), engine)
        invariant |delivered| >= |old(delivered)| && (flushed <==> |delivered| > |old(delivered)|)
        invariant !flushed ==> delivered == old(delivered)
        decreases Distance8(write, read)
      {
        ghost var before := Model();
        WindowPop(slots[..], read, write);
        var taken := Offer(slots[read % CAPACITY]);
        if !taken { return; }
        read := (read + 1) % 256;
        assert Model() == Queue(before.delivered + [before.waiting[0]], before.waiting[1..], before.offers + 1);
        flushed := true;
      }
    }
  }
}
