/** The CRC-16 of tools/aethor_host_simulator.py, with polynomial 0x1021 and seed 0xFFFF: the loop
    that computes it, a fold of byte steps, and a register fed bit by bit. */
module Crc {
  type byte = bv8

  // ----- The 16-bit register -----

  function Xor(x: bv16, y: bv16): bv16 {
    x ^ y
  }

  function Double(c: bv16): bv16 {
    c << 1
  }

  predicate HasTop(c: bv16) {
    c & 0x8000 != 0
  }

  const POLYNOMIAL: bv16 := 0x1021

  /** One shift of the register. */
  function Shift(c: bv16): bv16 {
    if HasTop(c) then Xor(Double(c), POLYNOMIAL) else Double(c)
  }

  function Shifts(c: bv16, n: nat): bv16
    decreases n
  {
    if n == 0 then c else Shifts(Shift(c), n - 1)
  }

  function Raise(b: byte): bv16 {
    (b as bv16) << 8
  }

  function Step(c: bv16, b: byte): bv16 {
    Shifts(Xor(c, Raise(b)), 8)
  }

  function Fold(c: bv16, data: seq<byte>): bv16
    decreases |data|
  {
    if data == [] then c else Fold(Step(c, data[0]), data[1..])
  }

  const SEED: bv16 := 0xFFFF

  method Crc16(data: seq<byte>) returns (crc: bv16)
    ensures crc == Fold(SEED, data)
  {
    crc := SEED;
    var i := 0;
    assert data[0..] == data;
    while i < |data|
      invariant 0 <= i <= |data| && Fold(crc, data[i..]) == Fold(SEED, data)
    {
      hide Shift, Xor, Raise;
      assert data[i..][1..] == data[i + 1..];
      ghost var stepped := Step(crc, data[i]);
      crc := Xor(crc, Raise(data[i]));
      var k := 0;
      while k < 8
        invariant 0 <= k <= 8 && Shifts(crc, 8 - k) == stepped
      {
        crc := Shift(crc);
        k := k + 1;
      }
      i := i + 1;
    }
  }

  // ----- Facts about single registers -----

  lemma XorRules(x: bv16, y: bv16, z: bv16)
    ensures Xor(x, Xor(y, z)) == Xor(Xor(x, y), z) && Xor(x, y) == Xor(y, x)
    ensures Xor(x, x) == 0 && Xor(x, 0) == x
  {
  }

  lemma XorCancels(x: bv16, y: bv16, m: bv16)
    requires Xor(x, m) == Xor(y, m)
    ensures x == y
  {
    assert (x ^ m) ^ m == x && (y ^ m) ^ m == y;
  }

  lemma XorZero(x: bv16, y: bv16)
    ensures Xor(x, y) == 0 <==> x == y
  {
    hide Xor;
    XorRules(y, y, 0);
    if Xor(x, y) == 0 { XorCancels(x, y, y); }
  }

  lemma RaiseInjective(a: byte, b: byte)
    requires Raise(a) == Raise(b)
    ensures a == b
  {
  }

  lemma XorTop(x: bv16, y: bv16)
    ensures HasTop(Xor(x, y)) <==> (HasTop(x) != HasTop(y))
    ensures Double(Xor(x, y)) == Xor(Double(x), Double(y))
  {
  }

  lemma XorOut(a: bv16, b: bv16, p: bv16)
    ensures Xor(Xor(a, p), b) == Xor(Xor(a, b), p) && Xor(a, Xor(b, p)) == Xor(Xor(a, b), p)
    ensures Xor(Xor(a, p), Xor(b, p)) == Xor(a, b)
  {
    hide *;
    XorRules(a, p, b);
    XorRules(p, b, 0);
    XorRules(a, b, p);
    XorRules(Xor(a, b), p, p);
    XorRules(Xor(a, p), b, p);
    XorRules(p, p, 0);
    XorRules(Xor(a, b), 0, 0);
  }

  lemma ShiftLinear(x: bv16, y: bv16)
    ensures Shift(Xor(x, y)) == Xor(Shift(x), Shift(y))
  {
    hide Xor, Double, HasTop;
    XorTop(x, y);
    XorOut(Double(x), Double(y), POLYNOMIAL);
  }

  /** The shift can be undone: the low bit tells whether the polynomial was applied. */
  function Unshift(y: bv16): bv16 {
    if y & 1 != 0 then ((y ^ 0x1021) >> 1) | 0x8000 else y >> 1
  }

  lemma HighUndone(x: bv16)
    requires x & 0x8000 != 0
    ensures ((x << 1) ^ 0x1021) & 1 != 0
    ensures ((((x << 1) ^ 0x1021) ^ 0x1021) >> 1) | 0x8000 == x
  {
  }

  lemma LowUndone(x: bv16)
    requires x & 0x8000 == 0
    ensures (x << 1) & 1 == 0 && (x << 1) >> 1 == x
  {
  }

  lemma ShiftUndone(x: bv16)
    ensures Unshift(Shift(x)) == x
  {
    if x & 0x8000 != 0 { HighUndone(x); } else { LowUndone(x); }
  }

  lemma ShiftInjective(x: bv16, y: bv16)
    requires Shift(x) == Shift(y)
    ensures x == y
  {
    hide *;
    ShiftUndone(x);
    ShiftUndone(y);
  }

  lemma {:induction false} ShiftsLinear(x: bv16, y: bv16, n: nat)
    ensures Shifts(Xor(x, y), n) == Xor(Shifts(x, n), Shifts(y, n))
    decreases n
  {
    hide Shift, Xor;
    if n > 0 {
      ShiftLinear(x, y);
      ShiftsLinear(Shift(x), Shift(y), n - 1);
    }
  }

  lemma {:induction false} ShiftsInjective(x: bv16, y: bv16, n: nat)
    requires Shifts(x, n) == Shifts(y, n)
    ensures x == y
    decreases n
  {
    hide Shift;
    if n > 0 {
      ShiftsInjective(Shift(x), Shift(y), n - 1);
      ShiftInjective(x, y);
    }
  }

  /** A byte step is injective in the register, and in the byte. */
  lemma StepInjective(c: bv16, d: bv16, a: byte, b: byte)
    ensures Step(c, a) == Step(d, a) ==> c == d
    ensures Step(c, a) == Step(c, b) ==> a == b
  {
    hide Shift, Shifts, Xor, Raise;
    if Step(c, a) == Step(d, a) {
      ShiftsInjective(Xor(c, Raise(a)), Xor(d, Raise(a)), 8);
      XorCancels(c, d, Raise(a));
    }
    if Step(c, a) == Step(c, b) {
      ShiftsInjective(Xor(c, Raise(a)), Xor(c, Raise(b)), 8);
      XorRules(c, Raise(a), 0);
      XorRules(c, Raise(b), 0);
      XorCancels(Raise(a), Raise(b), c);
      RaiseInjective(a, b);
    }
  }

  // ----- Bit by bit -----

  function Top(b: bool): bv16 {
    if b then 0x8000 else 0
  }

  function Halve(x: bv16): bv16 {
    x >> 1
  }

  predicate Clear(x: bv16, m: bv16) {
    x & m == 0
  }

  /** The register after feeding message bits one at a time, most significant first. */
  function Feed(c: bv16, bits: seq<bool>): bv16
    decreases |bits|
  {
    if bits == [] then c else Feed(Shift(Xor(c, Top(bits[0]))), bits[1..])
  }

  /** At most sixteen bits, left-aligned in a register. */
  function Align(bits: seq<bool>): bv16
    decreases |bits|
  {
    if bits == [] then 0 else Xor(Top(bits[0]), Halve(Align(bits[1..])))
  }

  /** The k lowest bits of a register. */
  function Low(k: nat): bv16 {
    match k
    case 0 => 0x0
    case 1 => 0x1
    case 2 => 0x3
    case 3 => 0x7
    case 4 => 0xF
    case 5 => 0x1F
    case 6 => 0x3F
    case 7 => 0x7F
    case 8 => 0xFF
    case 9 => 0x1FF
    case 10 => 0x3FF
    case 11 => 0x7FF
    case 12 => 0xFFF
    case 13 => 0x1FFF
    case 14 => 0x3FFF
    case 15 => 0x7FFF
    case _ => 0xFFFF
  }

  lemma LowDoubles(k: nat)
    requires 0 < k <= 16
    ensures Low(k) == (Low(k - 1) << 1) | 1
    ensures Low(k - 1) & 0x8000 == 0
  {
  }

  lemma ClearStep(b: bool, x: bv16, k: nat)
    requires 0 < k <= 16 && Clear(x, Low(k))
    ensures Clear(Xor(Top(b), Halve(x)), Low(k - 1))
  {
    LowDoubles(k);
    hide Low, Top;
    assert (Top(b) ^ (x >> 1)) & Low(k - 1) == 0;
  }

  /** Aligning fewer than sixteen bits leaves the rest of the register clear. */
  lemma {:induction false} AlignClear(bits: seq<bool>)
    requires |bits| <= 16
    ensures Clear(Align(bits), Low(16 - |bits|))
    decreases |bits|
  {
    if bits == [] {
      assert Clear(0, Low(16));
    } else {
      AlignClear(bits[1..]);
      ClearStep(bits[0], Align(bits[1..]), 17 - |bits|);
    }
    hide Clear, Low, Xor, Halve, Top;
  }

  lemma OddClear(x: bv16, m: bv16)
    requires x & ((m << 1) | 1) == 0
    ensures x & 1 == 0
  {
  }

  lemma HalvedTop(x: bv16)
    requires x & 1 == 0
    ensures (x >> 1) & 0x8000 == 0 && (x >> 1) << 1 == x
  {
  }

  /** A register whose last bit is clear survives being halved and shifted back. */
  lemma ShiftBack(x: bv16, k: nat)
    requires 0 < k <= 16 && Clear(x, Low(k))
    ensures Shift(Halve(x)) == x
  {
    LowDoubles(k);
    hide Low;
    OddClear(x, Low(k - 1));
    HalvedTop(x);
  }

  /** Feeding up to sixteen bits is exclusive-or with their alignment, then one shift per bit. */
  lemma {:induction false} FeedIsAlign(c: bv16, bits: seq<bool>)
    requires |bits| <= 16
    ensures Feed(c, bits) == Shifts(Xor(c, Align(bits)), |bits|)
    decreases |bits|
  {
    hide Xor, Shift, Halve, Top, Low, Clear;
    if bits == [] {
      XorRules(c, 0, 0);
    } else {
      var t, r := Top(bits[0]), Align(bits[1..]);
      FeedIsAlign(Shift(Xor(c, t)), bits[1..]);
      AlignClear(bits[1..]);
      ShiftBack(r, 17 - |bits|);
      ShiftLinear(Xor(c, t), Halve(r));
      XorRules(c, t, Halve(r));
    }
  }

  lemma {:induction false} FeedTwice(c: bv16, a: seq<bool>, b: seq<bool>)
    ensures Feed(c, a + b) == Feed(Feed(c, a), b)
    decreases |a|
  {
    hide Xor, Shift, Top;
    if a == [] {
      assert a + b == b;
    } else {
      assert (a + b)[1..] == a[1..] + b;
      FeedTwice(Shift(Xor(c, Top(a[0]))), a[1..], b);
    }
  }

  // ----- Bytes as bits -----

  function Bits8(b: byte): seq<bool> {
    [b & 0x80 != 0, b & 0x40 != 0, b & 0x20 != 0, b & 0x10 != 0, b & 0x08 != 0, b & 0x04 != 0, b & 0x02 != 0, b & 0x01 != 0]
  }

  function Bits(data: seq<byte>): (bits: seq<bool>)
    ensures |bits| == 8 * |data|
    decreases |data|
  {
    if data == [] then [] else Bits8(data[0]) + Bits(data[1..])
  }

  /** The eight bits of a byte, aligned by their weights. */
  function Weighted(a: bool, b: bool, c: bool, d: bool, e: bool, f: bool, g: bool, h: bool): bv16 {
    Xor(Top(a), Halve(Xor(Top(b), Halve(Xor(Top(c), Halve(Xor(Top(d), Halve(Xor(Top(e), Halve(Xor(Top(f), Halve(Xor(Top(g), Halve(Xor(Top(h), Halve(0))))))))))))))))
  }

  lemma ByteAligned(b: byte)
    ensures Align(Bits8(b)) == Raise(b)
  {
    AlignEight(b & 0x80 != 0, b & 0x40 != 0, b & 0x20 != 0, b & 0x10 != 0, b & 0x08 != 0, b & 0x04 != 0, b & 0x02 != 0, b & 0x01 != 0);
    WeightedByte(b);
    hide Align, Weighted, Raise, Xor, Top, Halve;
  }

  lemma AlignEight(a: bool, b: bool, c: bool, d: bool, e: bool, f: bool, g: bool, h: bool)
    ensures Align([a, b, c, d, e, f, g, h]) == Weighted(a, b, c, d, e, f, g, h)
  {
    hide Xor, Top, Halve, Align;
    AlignFour(e, f, g, h, []);
    AlignFour(a, b, c, d, [e, f, g, h]);
    AlignNone();
    assert [e, f, g, h] + [] == [e, f, g, h];
    assert [a, b, c, d] + [e, f, g, h] == [a, b, c, d, e, f, g, h];
  }

  lemma AlignFour(a: bool, b: bool, c: bool, d: bool, rest: seq<bool>)
    ensures Align([a, b, c, d] + rest) == Xor(Top(a), Halve(Xor(Top(b), Halve(Xor(Top(c), Halve(Xor(Top(d), Halve(Align(rest)))))))))
  {
    hide Xor, Top, Halve, Align;
    AlignTwo(c, d, rest);
    AlignTwo(a, b, [c, d] + rest);
    assert [a, b] + ([c, d] + rest) == [a, b, c, d] + rest;
  }

  lemma AlignTwo(a: bool, b: bool, rest: seq<bool>)
    ensures Align([a, b] + rest) == Xor(Top(a), Halve(Xor(Top(b), Halve(Align(rest)))))
  {
    hide Xor, Top, Halve, Align;
    AlignCons(b, rest);
    AlignCons(a, [b] + rest);
    assert [a] + ([b] + rest) == [a, b] + rest;
  }

  lemma AlignCons(b: bool, rest: seq<bool>)
    ensures Align([b] + rest) == Xor(Top(b), Halve(Align(rest)))
  {
    assert ([b] + rest)[1..] == rest;
  }

  lemma AlignNone()
    ensures Align([]) == 0
  {
  }

  lemma WeightedByte(b: byte)
    ensures Weighted(b & 0x80 != 0, b & 0x40 != 0, b & 0x20 != 0, b & 0x10 != 0, b & 0x08 != 0, b & 0x04 != 0, b & 0x02 != 0, b & 0x01 != 0) == Raise(b)
  {
  }

  /** A byte step is eight bit steps. */
  lemma StepIsFeed(c: bv16, b: byte)
    ensures Step(c, b) == Feed(c, Bits8(b))
  {
    hide Xor, Raise, Align, Feed, Shifts;
    FeedIsAlign(c, Bits8(b));
    ByteAligned(b);
  }

  lemma {:induction false} FoldIsFeed(c: bv16, data: seq<byte>)
    ensures Fold(c, data) == Feed(c, Bits(data))
    decreases |data|
  {
    hide Step, Feed, Bits8;
    if data == [] {
      FeedNone(c);
    } else {
      StepIsFeed(c, data[0]);
      FoldIsFeed(Step(c, data[0]), data[1..]);
      FeedTwice(c, Bits8(data[0]), Bits(data[1..]));
    }
  }

  lemma FeedNone(c: bv16)
    ensures Feed(c, []) == c
  {
  }

  // ----- Error detection -----

  function Differ(a: seq<bool>, b: seq<bool>): seq<bool>
    requires |a| == |b|
  {
    seq(|a|, i requires 0 <= i < |a| => a[i] != b[i])
  }

  lemma TopDiffers(x: bool, y: bool)
    ensures Xor(Top(x), Top(y)) == Top(x != y)
  {
  }

  /** Linearity: checksums of equally long messages differ by the checksum, from register zero, of
      where the messages differ. */
  lemma {:induction false} FeedLinear(c: bv16, d: bv16, a: seq<bool>, b: seq<bool>)
    requires |a| == |b|
    ensures Xor(Feed(c, a), Feed(d, b)) == Feed(Xor(c, d), Differ(a, b))
    decreases |a|
  {
    hide Xor, Shift, Top;
    if a != [] {
      FeedLinear(Shift(Xor(c, Top(a[0]))), Shift(Xor(d, Top(b[0]))), a[1..], b[1..]);
      ShiftLinear(Xor(c, Top(a[0])), Xor(d, Top(b[0])));
      Shuffle(c, d, Top(a[0]), Top(b[0]));
      TopDiffers(a[0], b[0]);
      assert Differ(a, b)[1..] == Differ(a[1..], b[1..]);
    }
  }

  lemma Shuffle(c: bv16, d: bv16, s: bv16, t: bv16)
    ensures Xor(Xor(c, s), Xor(d, t)) == Xor(Xor(c, d), Xor(s, t))
  {
    hide *;
    XorRules(Xor(c, s), d, t);
    XorRules(c, s, d);
    XorRules(s, d, 0);
    XorRules(c, d, s);
    XorRules(Xor(c, d), s, t);
  }

  predicate AllClear(bits: seq<bool>) {
    forall i | 0 <= i < |bits| :: !bits[i]
  }

  /** Bits that match are shifts of the register alone, so they never hide a difference. */
  lemma {:induction false} FeedClear(c: bv16, bits: seq<bool>)
    requires AllClear(bits)
    ensures Feed(c, bits) == Shifts(c, |bits|)
    decreases |bits|
  {
    hide Xor, Shift;
    if bits != [] {
      XorRules(c, 0, 0);
      FeedClear(Shift(c), bits[1..]);
    }
  }

  lemma {:induction false} ShiftsZero(n: nat)
    ensures Shifts(0, n) == 0
    decreases n
  {
    if n > 0 { ShiftsZero(n - 1); }
  }

  /** The alignment of up to sixteen bits is zero only when all of them are clear. */
  lemma {:induction false} AlignInjective(bits: seq<bool>)
    requires |bits| <= 16 && Align(bits) == 0
    ensures AllClear(bits)
    decreases |bits|
  {
    hide Xor, Halve, Top, Clear, Low;
    if bits != [] {
      var r := Align(bits[1..]);
      AlignClear(bits[1..]);
      ClearOdd(r, 17 - |bits|);
      HalvesZero(bits[0], r);
      AlignInjective(bits[1..]);
      assert bits == [bits[0]] + bits[1..];
    }
  }

  lemma ClearOdd(x: bv16, k: nat)
    requires 0 < k <= 16 && Clear(x, Low(k))
    ensures x & 1 == 0
  {
    LowDoubles(k);
    hide Low;
    OddClear(x, Low(k - 1));
  }

  lemma HalvesZero(b: bool, x: bv16)
    requires x & 1 == 0 && Xor(Top(b), Halve(x)) == 0
    ensures !b && x == 0
  {
    HalvedTop(x);
    assert Xor(Top(b), Halve(x)) == 0 ==> !b && Halve(x) == 0;
  }

  /** Messages that differ only inside a window share a checksum exactly when what the window's
      differences leave behind, from register zero, is nothing. */
  lemma WindowDecides(c: bv16, a: seq<bool>, b: seq<bool>, from: nat, to: nat)
    requires |a| == |b| && from <= to <= |a| && a[..from] == b[..from] && a[to..] == b[to..]
    ensures Feed(c, a) == Feed(c, b) <==> Feed(0, Differ(a, b)[from..to]) == 0
  {
    hide Xor, Shift, Top, Feed, Shifts;
    var d := Differ(a, b);
    var left := Feed(0, d[from..to]);
    FeedLinear(c, c, a, b);
    XorRules(c, 0, 0);
    XorZero(Feed(c, a), Feed(c, b));
    XorRules(Feed(c, a), 0, 0);
    assert d == d[..from] + d[from..to] + d[to..];
    assert AllClear(d[..from]) && AllClear(d[to..]) by {
      assert forall i | 0 <= i < from :: a[i] == a[..from][i] == b[..from][i];
      assert forall i | to <= i < |a| :: a[i] == a[to..][i - to] == b[to..][i - to];
    }
    FeedTwice(0, d[..from] + d[from..to], d[to..]);
    FeedTwice(0, d[..from], d[from..to]);
    FeedClear(0, d[..from]);
    ShiftsZero(from);
    FeedClear(left, d[to..]);
    ShiftsZero(|a| - to);
    if Shifts(left, |a| - to) == 0 { ShiftsInjective(left, 0, |a| - to); }
  }

  /** Up to sixteen bits leave nothing behind only when all of them are clear. */
  lemma ShortWindow(bits: seq<bool>)
    requires |bits| <= 16 && Feed(0, bits) == 0
    ensures AllClear(bits)
  {
    hide Xor, Feed, Shifts, Align;
    FeedIsAlign(0, bits);
    XorRules(Align(bits), 0, 0);
    ShiftsZero(|bits|);
    ShiftsInjective(Align(bits), 0, |bits|);
    AlignInjective(bits);
  }

  /** A burst of up to sixteen differing bits always changes the checksum. */
  lemma BurstDetected(c: bv16, a: seq<bool>, b: seq<bool>, from: nat, to: nat)
    requires |a| == |b| && from <= to <= |a| && to - from <= 16
    requires a[..from] == b[..from] && a[to..] == b[to..] && a != b
    ensures Feed(c, a) != Feed(c, b)
  {
    hide Feed;
    WindowDecides(c, a, b, from, to);
    if Feed(c, a) == Feed(c, b) {
      ShortWindow(Differ(a, b)[from..to]);
      AllSame(a, b, from, to);
      assert false;
    }
  }

  /** The generator polynomial, highest power first. */
  const GENERATOR: seq<bool>
    := [true, false, false, false, true, false, false, false, false, false, false, true, false, false, false, false, true]

  lemma GeneratorLeavesNothing()
    ensures Feed(0, GENERATOR) == 0
  {
    GeneratorVanishes();
    FoldIsFeed(0, [0x01, 0x10, 0x21]);
    var zeros := [false, false, false, false, false, false, false];
    GeneratorBits();
    FeedTwice(0, zeros, GENERATOR);
    hide Feed, Fold;
    FeedClear(0, zeros);
    ShiftsZero(7);
  }

  lemma GeneratorBits()
    ensures Bits([0x01, 0x10, 0x21]) == [false, false, false, false, false, false, false] + GENERATOR
  {
    assert Bits8(0x01) == [false, false, false, false, false, false, false, true];
    assert Bits8(0x10) == [false, false, false, true, false, false, false, false];
    assert Bits8(0x21) == [false, false, true, false, false, false, false, true];
    hide Bits8;
    assert Bits([0x01, 0x10, 0x21]) == Bits8(0x01) + (Bits8(0x10) + (Bits8(0x21) + []));
  }

  /** Seventeen bits leave nothing behind when all are clear, or when they are the generator; never
      otherwise. */
  lemma SeventeenVanish(w: seq<bool>)
    requires |w| == 17
    ensures Feed(0, w) == 0 <==> AllClear(w) || w == GENERATOR
  {
    hide Feed, Xor, Shifts;
    GeneratorLeavesNothing();
    if AllClear(w) {
      FeedClear(0, w);
      ShiftsZero(17);
    }
    if Feed(0, w) == 0 {
      if w[0] {
        var d := Differ(w, GENERATOR);
        FeedLinear(0, 0, w, GENERATOR);
        XorRules(0, 0, 0);
        LeadingClear(d);
        assert d[0..17] == d;
        AllSame(w, GENERATOR, 0, 17);
      } else {
        LeadingClear(w);
      }
    }
  }

  lemma LeadingClear(w: seq<bool>)
    requires |w| == 17 && !w[0] && Feed(0, w) == 0
    ensures AllClear(w)
  {
    assert Shift(0) == 0;
    XorRules(0, 0, 0);
    assert Feed(0, w) == Feed(Shift(Xor(0, Top(w[0]))), w[1..]);
    hide Feed, Shift, Xor;
    ShortWindow(w[1..]);
    assert w == [w[0]] + w[1..];
  }

  lemma AllSame(a: seq<bool>, b: seq<bool>, from: nat, to: nat)
    requires |a| == |b| && from <= to <= |a|
    requires a[..from] == b[..from] && a[to..] == b[to..] && AllClear(Differ(a, b)[from..to])
    ensures a == b
  {
    forall i | 0 <= i < |a|
      ensures a[i] == b[i]
    {
      if i < from { assert a[i] == a[..from][i]; }
      else if i < to { assert !Differ(a, b)[from..to][i - from]; }
      else { assert a[i] == a[to..][i - to]; }
    }
  }

  // ----- Bodies -----

  lemma Bits8Injective(x: byte, y: byte)
    requires Bits8(x) == Bits8(y)
    ensures x == y
  {
    ByteAligned(x);
    ByteAligned(y);
    hide Bits8, Align;
    RaiseInjective(x, y);
  }

  lemma {:induction false} BitsInjective(a: seq<byte>, b: seq<byte>)
    requires Bits(a) == Bits(b)
    ensures a == b
    decreases |a|
  {
    assert |a| == |b|;
    if a != [] {
      HeadBits(a);
      HeadBits(b);
      hide Bits8;
      Bits8Injective(a[0], b[0]);
      BitsInjective(a[1..], b[1..]);
      assert a == [a[0]] + a[1..] && b == [b[0]] + b[1..];
    }
  }

  lemma HeadBits(a: seq<byte>)
    requires a != []
    ensures Bits(a)[..8] == Bits8(a[0]) && Bits(a)[8..] == Bits(a[1..])
  {
  }

  lemma {:induction false} BitsOfSplit(a: seq<byte>, b: seq<byte>)
    ensures Bits(a + b) == Bits(a) + Bits(b)
    decreases |a|
  {
    hide Bits8;
    if a == [] {
      assert a + b == b;
    } else {
      assert (a + b)[1..] == a[1..] + b;
      BitsOfSplit(a[1..], b);
    }
  }

  /** Two different bodies of equal length that differ only inside a stretch of sixteen bits, at
      whatever bit it begins, never share a CRC-16. */
  lemma BurstChangesCrc16(a: seq<byte>, b: seq<byte>, from: nat, to: nat)
    requires |a| == |b| && a != b && from <= to <= 8 * |a| && to - from <= 16
    requires Bits(a)[..from] == Bits(b)[..from] && Bits(a)[to..] == Bits(b)[to..]
    ensures Fold(SEED, a) != Fold(SEED, b)
  {
    hide Feed, Fold, Bits8, Bits;
    if Bits(a) == Bits(b) { BitsInjective(a, b); }
    BurstDetected(SEED, Bits(a), Bits(b), from, to);
    FoldIsFeed(SEED, a);
    FoldIsFeed(SEED, b);
  }

  /** In particular a change of two adjacent bytes is always detected. */
  lemma TwoBytesChangeCrc16(prefix: seq<byte>, x: seq<byte>, y: seq<byte>, suffix: seq<byte>)
    requires |x| == |y| <= 2 && x != y
    ensures Fold(SEED, prefix + x + suffix) != Fold(SEED, prefix + y + suffix)
  {
    hide Feed, Fold, Bits8, Bits;
    var a, b := prefix + x + suffix, prefix + y + suffix;
    var from, to := 8 * |prefix|, 8 * (|prefix| + |x|);
    BitsOfSplit(prefix + x, suffix);
    BitsOfSplit(prefix, x);
    BitsOfSplit(prefix + y, suffix);
    BitsOfSplit(prefix, y);
    assert Bits(a)[..from] == Bits(prefix) && Bits(b)[..from] == Bits(prefix);
    assert Bits(a)[to..] == Bits(suffix) && Bits(b)[to..] == Bits(suffix);
    assert x == a[|prefix|..|prefix| + |x|] && y == b[|prefix|..|prefix| + |x|];
    BurstChangesCrc16(a, b, from, to);
  }

  /** Seventeen bits are too many, and exactly one pattern hides: bodies that differ only inside
      seventeen consecutive bits share a CRC-16 if and only if they are equal or their difference
      there is the generator. */
  lemma SeventeenBitsHideIff(a: seq<byte>, b: seq<byte>, from: nat)
    requires |a| == |b| && from + 17 <= 8 * |a|
    requires Bits(a)[..from] == Bits(b)[..from] && Bits(a)[from + 17..] == Bits(b)[from + 17..]
    ensures Fold(SEED, a) == Fold(SEED, b) <==> a == b || Differ(Bits(a), Bits(b))[from..from + 17] == GENERATOR
  {
    hide Feed, Fold, Bits8, Bits;
    var w := Differ(Bits(a), Bits(b))[from..from + 17];
    FoldIsFeed(SEED, a);
    FoldIsFeed(SEED, b);
    WindowDecides(SEED, Bits(a), Bits(b), from, from + 17);
    SeventeenVanish(w);
    if AllClear(w) {
      AllSame(Bits(a), Bits(b), from, from + 17);
      BitsInjective(a, b);
    }
  }

  lemma GeneratorVanishes()
    ensures Fold(0, [0x01, 0x10, 0x21]) == 0
  {
    assert Step(0, 0x01) == 0x1021;
    assert Step(0x1021, 0x10) == Shifts(0x0021, 8) == 0x2100;
    assert Step(0x2100, 0x21) == Shifts(0, 8) == 0;
    assert [0x01 as byte, 0x10, 0x21][1..] == [0x10, 0x21] && [0x10 as byte, 0x21][1..] == [0x21] && [0x21 as byte][1..] == [];
  }
}
