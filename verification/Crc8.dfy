/** The reflected CRC-8 of tools/analyze_6620_package_format.py, as the loop that computes it, a fold
    of byte steps, and a register fed bit by bit, lowest bit of each byte first. */
module Crc8 {
  import opened Crc

  function Xor8(x: bv8, y: bv8): bv8 {
    x ^ y
  }

  function Shift8(c: bv8): bv8 {
    if c & 1 != 0 then (c >> 1) ^ 0x8C else c >> 1
  }

  function Shifts8(c: bv8, n: nat): bv8
    decreases n
  {
    if n == 0 then c else Shifts8(Shift8(c), n - 1)
  }

  function Step8(c: bv8, b: byte): bv8 {
    Shifts8(Xor8(c, b), 8)
  }

  function Fold8(c: bv8, data: seq<byte>): bv8
    decreases |data|
  {
    if data == [] then c else Fold8(Step8(c, data[0]), data[1..])
  }

  method Crc8(data: seq<byte>) returns (crc: bv8)
    ensures crc == Fold8(0, data)
  {
    crc := 0;
    var i := 0;
    assert data[0..] == data;
    while i < |data|
      invariant 0 <= i <= |data| && Fold8(crc, data[i..]) == Fold8(0, data)
    {
      hide Shift8;
      assert data[i..][1..] == data[i + 1..];
      ghost var stepped := Step8(crc, data[i]);
      crc := Xor8(crc, data[i]);
      var k := 0;
      while k < 8
        invariant 0 <= k <= 8 && Shifts8(crc, 8 - k) == stepped
      {
        crc := Shift8(crc);
        k := k + 1;
      }
      i := i + 1;
    }
  }

  lemma Shift8Injective(x: bv8, y: bv8)
    requires Shift8(x) == Shift8(y)
    ensures x == y
  {
  }

  lemma {:induction false} Shifts8Injective(x: bv8, y: bv8, n: nat)
    requires Shifts8(x, n) == Shifts8(y, n)
    ensures x == y
    decreases n
  {
    hide Shift8;
    if n > 0 {
      Shifts8Injective(Shift8(x), Shift8(y), n - 1);
      Shift8Injective(x, y);
    }
  }

  lemma Step8Injective(c: bv8, d: bv8, a: byte, b: byte)
    ensures Step8(c, a) == Step8(d, a) ==> c == d
    ensures Step8(c, a) == Step8(c, b) ==> a == b
  {
    hide Shifts8;
    if Step8(c, a) == Step8(d, a) { Shifts8Injective(Xor8(c, a), Xor8(d, a), 8); XorBack8(c, d, a); }
    if Step8(c, a) == Step8(c, b) { Shifts8Injective(Xor8(c, a), Xor8(c, b), 8); XorBack8(a, b, c); }
  }

  lemma XorBack8(c: bv8, d: bv8, m: bv8)
    requires Xor8(c, m) == Xor8(d, m) || Xor8(m, c) == Xor8(m, d)
    ensures c == d
  {
  }

  lemma {:induction false} Fold8Injective(c: bv8, d: bv8, data: seq<byte>)
    requires Fold8(c, data) == Fold8(d, data)
    ensures c == d
    decreases |data|
  {
    hide Step8;
    if data != [] {
      Fold8Injective(Step8(c, data[0]), Step8(d, data[0]), data[1..]);
      Step8Injective(c, d, data[0], data[0]);
    }
  }

  lemma {:induction false} Fold8Split(c: bv8, a: seq<byte>, b: seq<byte>)
    ensures Fold8(c, a + b) == Fold8(Fold8(c, a), b)
    decreases |a|
  {
    hide Step8;
    if a == [] {
      assert a + b == b;
    } else {
      assert (a + b)[1..] == a[1..] + b;
      Fold8Split(Step8(c, a[0]), a[1..], b);
    }
  }

  lemma Fold8Mark(prefix: seq<byte>, x: byte, suffix: seq<byte>)
    ensures Fold8(0, prefix + [x] + suffix) == Fold8(Step8(Fold8(0, prefix), x), suffix)
  {
    hide Step8;
    Fold8Split(0, prefix + [x], suffix);
    Fold8Split(0, prefix, [x]);
    assert [x][1..] == [];
  }

  // ----- Linearity -----

  lemma Shift8Linear(x: bv8, y: bv8)
    ensures Shift8(Xor8(x, y)) == Xor8(Shift8(x), Shift8(y))
  {
  }

  lemma {:induction false} Shifts8Linear(x: bv8, y: bv8, n: nat)
    ensures Shifts8(Xor8(x, y), n) == Xor8(Shifts8(x, n), Shifts8(y, n))
    decreases n
  {
    hide Shift8, Xor8;
    if n > 0 {
      Shift8Linear(x, y);
      Shifts8Linear(Shift8(x), Shift8(y), n - 1);
    }
  }

  lemma Xor8Rules(x: bv8, y: bv8, z: bv8)
    ensures Xor8(Xor8(x, y), z) == Xor8(x, Xor8(y, z)) && Xor8(x, y) == Xor8(y, x)
  {
  }

  lemma Shuffle8(c: bv8, d: bv8, s: bv8, t: bv8)
    ensures Xor8(Xor8(c, s), Xor8(d, t)) == Xor8(Xor8(c, d), Xor8(s, t))
  {
    hide *;
    Xor8Rules(Xor8(c, s), d, t);
    Xor8Rules(c, s, d);
    Xor8Rules(d, s, 0);
    Xor8Rules(c, d, s);
    Xor8Rules(Xor8(c, d), s, t);
  }

  function XorBytes(a: seq<byte>, b: seq<byte>): seq<byte>
    requires |a| == |b|
  {
    seq(|a|, i requires 0 <= i < |a| => Xor8(a[i], b[i]))
  }

  /** Checksums of equally long payloads differ by the checksum of their difference. */
  lemma {:induction false} Fold8Linear(c: bv8, d: bv8, a: seq<byte>, b: seq<byte>)
    requires |a| == |b|
    ensures Xor8(Fold8(c, a), Fold8(d, b)) == Fold8(Xor8(c, d), XorBytes(a, b))
    decreases |a|
  {
    hide Shifts8, Xor8;
    if a != [] {
      Fold8Linear(Step8(c, a[0]), Step8(d, b[0]), a[1..], b[1..]);
      Shifts8Linear(Xor8(c, a[0]), Xor8(d, b[0]), 8);
      Shuffle8(c, d, a[0], b[0]);
      assert XorBytes(a, b)[1..] == XorBytes(a[1..], b[1..]);
    }
  }

  // ----- Bit by bit, lowest bit first -----

  function Bottom(b: bool): bv8 {
    if b then 1 else 0
  }

  function Up8(x: bv8): bv8 {
    x << 1
  }

  predicate Has(x: bv8, m: bv8) {
    x & m != 0
  }

  function Feed8(c: bv8, bits: seq<bool>): bv8
    decreases |bits|
  {
    if bits == [] then c else Feed8(Shift8(Xor8(c, Bottom(bits[0]))), bits[1..])
  }

  /** At most eight bits in a register, the first one lowest. */
  function Align8(bits: seq<bool>): bv8
    decreases |bits|
  {
    if bits == [] then 0 else Xor8(Bottom(bits[0]), Up8(Align8(bits[1..])))
  }

  /** All but the k lowest bits. */
  function High(k: nat): bv8 {
    match k
    case 0 => 0xFF case 1 => 0xFE case 2 => 0xFC case 3 => 0xF8 case 4 => 0xF0
    case 5 => 0xE0 case 6 => 0xC0 case 7 => 0x80 case _ => 0
  }

  lemma HighClear(b: bool, x: bv8, k: nat)
    requires k < 8 && !Has(x, High(k))
    ensures !Has(Xor8(Bottom(b), Up8(x)), High(k + 1)) && !Has(x, 0x80)
  {
  }

  lemma {:induction false} Align8Clear(bits: seq<bool>)
    requires |bits| <= 8
    ensures !Has(Align8(bits), High(|bits|))
    decreases |bits|
  {
    hide Bottom, High, Xor8, Up8, Has;
    if bits == [] {
      ZeroMasked();
    } else {
      Align8Clear(bits[1..]);
      HighClear(bits[0], Align8(bits[1..]), |bits| - 1);
    }
  }

  lemma ZeroMasked()
    ensures !Has(0, High(0))
  {
  }

  /** Shifting down undoes the alignment of a bit. */
  lemma ShiftDown(c: bv8, b: bool, x: bv8)
    requires !Has(x, 0x80)
    ensures Shift8(Xor8(c, Xor8(Bottom(b), Up8(x)))) == Xor8(Shift8(Xor8(c, Bottom(b))), x)
  {
  }

  lemma NoAlignment(c: bv8)
    ensures Xor8(c, Align8([])) == c
  {
  }

  /** Feeding up to eight bits is exclusive-or with their alignment, then one shift per bit. */
  lemma {:induction false} Feed8IsAlign(c: bv8, bits: seq<bool>)
    requires |bits| <= 8
    ensures Feed8(c, bits) == Shifts8(Xor8(c, Align8(bits)), |bits|)
    decreases |bits|
  {
    hide Bottom, High, Shift8, Xor8, Up8, Has;
    if bits == [] {
      NoAlignment(c);
    } else {
      Align8Clear(bits[1..]);
      HighClear(bits[0], Align8(bits[1..]), |bits| - 1);
      ShiftDown(c, bits[0], Align8(bits[1..]));
      Feed8IsAlign(Shift8(Xor8(c, Bottom(bits[0]))), bits[1..]);
    }
  }

  lemma {:induction false} Feed8Twice(c: bv8, a: seq<bool>, b: seq<bool>)
    ensures Feed8(c, a + b) == Feed8(Feed8(c, a), b)
    decreases |a|
  {
    hide Shift8, Bottom, Xor8;
    if a == [] {
      assert a + b == b;
    } else {
      assert (a + b)[1..] == a[1..] + b;
      Feed8Twice(Shift8(Xor8(c, Bottom(a[0]))), a[1..], b);
    }
  }

  /** Bit k of a byte, the lowest being bit zero. */
  predicate Bit(b: byte, k: nat) {
    match k
    case 0 => Has(b, 0x01) case 1 => Has(b, 0x02) case 2 => Has(b, 0x04) case 3 => Has(b, 0x08)
    case 4 => Has(b, 0x10) case 5 => Has(b, 0x20) case 6 => Has(b, 0x40) case _ => Has(b, 0x80)
  }

  /** The bits of a byte in the order the CRC-8 takes them. */
  function LowFirst(b: byte): seq<bool> {
    [Bit(b, 0), Bit(b, 1), Bit(b, 2), Bit(b, 3), Bit(b, 4), Bit(b, 5), Bit(b, 6), Bit(b, 7)]
  }

  function WireBits(data: seq<byte>): (bits: seq<bool>)
    ensures |bits| == 8 * |data|
    decreases |data|
  {
    if data == [] then [] else LowFirst(data[0]) + WireBits(data[1..])
  }

  function Stack(b: bool, rest: bv8): bv8 {
    Xor8(Bottom(b), Up8(rest))
  }

  lemma StackedByte(b: byte)
    ensures Stack(Bit(b, 0), Stack(Bit(b, 1), Stack(Bit(b, 2), Stack(Bit(b, 3), Stack(Bit(b, 4),
            Stack(Bit(b, 5), Stack(Bit(b, 6), Stack(Bit(b, 7), 0)))))))) == b
  {
  }

  lemma AlignMore(b: bool, rest: seq<bool>)
    ensures Align8([b] + rest) == Stack(b, Align8(rest))
  {
    hide Xor8, Up8, Bottom;
    assert ([b] + rest)[1..] == rest;
  }

  lemma AlignTwo(a: bool, b: bool, rest: seq<bool>)
    ensures Align8([a, b] + rest) == Stack(a, Stack(b, Align8(rest)))
  {
    hide Stack, Align8;
    AlignMore(b, rest);
    AlignMore(a, [b] + rest);
    assert [a] + ([b] + rest) == [a, b] + rest;
  }

  lemma AlignFour(a: bool, b: bool, c: bool, d: bool, rest: seq<bool>)
    ensures Align8([a, b, c, d] + rest) == Stack(a, Stack(b, Stack(c, Stack(d, Align8(rest)))))
  {
    hide Stack, Align8;
    AlignTwo(c, d, rest);
    AlignTwo(a, b, [c, d] + rest);
    assert [a, b] + ([c, d] + rest) == [a, b, c, d] + rest;
  }

  lemma AlignEight(a: bool, b: bool, c: bool, d: bool, e: bool, f: bool, g: bool, h: bool)
    ensures Align8([a, b, c, d, e, f, g, h]) == Stack(a, Stack(b, Stack(c, Stack(d, Stack(e, Stack(f, Stack(g, Stack(h, 0))))))))
  {
    assert Align8([]) == 0;
    hide Stack, Align8;
    AlignFour(e, f, g, h, []);
    AlignFour(a, b, c, d, [e, f, g, h] + []);
    assert [a, b, c, d] + ([e, f, g, h] + []) == [a, b, c, d, e, f, g, h];
  }

  lemma ByteIsAligned(b: byte)
    ensures Align8(LowFirst(b)) == b
  {
    hide Align8, Stack, Bit;
    StackedByte(b);
    AlignEight(Bit(b, 0), Bit(b, 1), Bit(b, 2), Bit(b, 3), Bit(b, 4), Bit(b, 5), Bit(b, 6), Bit(b, 7));
  }

  lemma {:induction false} Fold8IsFeed(c: bv8, data: seq<byte>)
    ensures Fold8(c, data) == Feed8(c, WireBits(data))
    decreases |data|
  {
    hide Feed8, LowFirst, Shifts8, Align8, Xor8;
    if data == [] {
      FeedNothing(c);
    } else {
      EightBits(data[0]);
      Feed8IsAlign(c, LowFirst(data[0]));
      ByteIsAligned(data[0]);
      Fold8IsFeed(Step8(c, data[0]), data[1..]);
      Feed8Twice(c, LowFirst(data[0]), WireBits(data[1..]));
    }
  }

  lemma EightBits(b: byte)
    ensures |LowFirst(b)| == 8
  {
  }

  lemma FeedNothing(c: bv8)
    ensures Feed8(c, []) == c
  {
  }

  // ----- Bursts -----

  lemma {:induction false} Feed8Clear(c: bv8, bits: seq<bool>)
    requires AllClear(bits)
    ensures Feed8(c, bits) == Shifts8(c, |bits|)
    decreases |bits|
  {
    hide Shift8, Xor8, Bottom;
    if bits != [] {
      NoBottom(c);
      Feed8Clear(Shift8(c), bits[1..]);
    }
  }

  lemma NoBottom(c: bv8)
    ensures Xor8(c, Bottom(false)) == c
  {
  }

  lemma {:induction false} Shifts8Zero(n: nat)
    ensures Shifts8(0, n) == 0
    decreases n
  {
    if n > 0 { Shifts8Zero(n - 1); }
  }

  lemma {:induction false} Align8Injective(bits: seq<bool>)
    requires |bits| <= 8 && Align8(bits) == 0
    ensures AllClear(bits)
    decreases |bits|
  {
    hide Bottom, High, Xor8, Up8, Has;
    if bits != [] {
      Align8Clear(bits[1..]);
      HighClear(bits[0], Align8(bits[1..]), |bits| - 1);
      BothZero(bits[0], Align8(bits[1..]));
      Align8Injective(bits[1..]);
      assert bits == [bits[0]] + bits[1..];
    }
  }

  lemma BothZero(b: bool, x: bv8)
    requires !Has(x, 0x80) && Xor8(Bottom(b), Up8(x)) == 0
    ensures !b && x == 0
  {
  }

  /** Bytes differ exactly where their bits do. */
  lemma {:induction false} WireBitsOfXor(a: seq<byte>, b: seq<byte>)
    requires |a| == |b|
    ensures WireBits(XorBytes(a, b)) == Differ(WireBits(a), WireBits(b))
    decreases |a|
  {
    hide LowFirst, Xor8;
    if a != [] {
      WireBitsOfXor(a[1..], b[1..]);
      assert XorBytes(a, b)[1..] == XorBytes(a[1..], b[1..]);
      LowFirstOfXor(a[0], b[0]);
      EightBits(a[0]);
      EightBits(b[0]);
    }
  }

  lemma LowFirstOfXor(x: byte, y: byte)
    ensures |LowFirst(x)| == |LowFirst(y)| == 8 && LowFirst(Xor8(x, y)) == Differ(LowFirst(x), LowFirst(y))
  {
    hide LowFirst, Bit, Xor8;
    LowFirstIsBits(x);
    LowFirstIsBits(y);
    LowFirstIsBits(Xor8(x, y));
    forall k: nat | k < 8 ensures Bit(Xor8(x, y), k) == (Bit(x, k) != Bit(y, k)) { BitOfXor(x, y, k); }
  }

  lemma LowFirstIsBits(b: byte)
    ensures |LowFirst(b)| == 8 && forall k: nat | k < 8 :: LowFirst(b)[k] == Bit(b, k)
  {
    hide Bit;
  }

  lemma BitOfXor(x: bv8, y: bv8, k: nat)
    requires k < 8
    ensures Bit(Xor8(x, y), k) == (Bit(x, k) != Bit(y, k))
  {
    hide Has, Xor8;
    match k
    case 0 => LowMaskOfXor(x, y, 0x01);
    case 1 => LowMaskOfXor(x, y, 0x02);
    case 2 => LowMaskOfXor(x, y, 0x04);
    case 3 => LowMaskOfXor(x, y, 0x08);
    case 4 => HighMaskOfXor(x, y, 0x10);
    case 5 => HighMaskOfXor(x, y, 0x20);
    case 6 => HighMaskOfXor(x, y, 0x40);
    case _ => HighMaskOfXor(x, y, 0x80);
  }

  /** A mask of one bit reads the difference of two bytes. */
  lemma LowMaskOfXor(x: bv8, y: bv8, m: bv8)
    requires m == 0x01 || m == 0x02 || m == 0x04 || m == 0x08
    ensures Has(Xor8(x, y), m) == (Has(x, m) != Has(y, m))
  {
  }

  lemma HighMaskOfXor(x: bv8, y: bv8, m: bv8)
    requires m == 0x10 || m == 0x20 || m == 0x40 || m == 0x80
    ensures Has(Xor8(x, y), m) == (Has(x, m) != Has(y, m))
  {
  }

  lemma SelfXor(c: bv8, x: bv8, y: bv8)
    ensures Xor8(c, c) == 0 && (Xor8(x, y) == 0 <==> x == y) && Xor8(c, 0) == c && Xor8(0, c) == c
  {
  }

  /** By linearity, two different payloads of equal length that differ only inside a stretch of eight
      bits, at whatever bit it begins, never share a CRC-8. */
  lemma BurstChangesCrc8(a: seq<byte>, b: seq<byte>, from: nat, to: nat)
    requires |a| == |b| && a != b && from <= to <= 8 * |a| && to - from <= 8
    requires WireBits(a)[..from] == WireBits(b)[..from] && WireBits(a)[to..] == WireBits(b)[to..]
    ensures Fold8(0, a) != Fold8(0, b)
  {
    hide Fold8, Feed8, Shifts8, Align8, WireBits, XorBytes, Xor8;
    var d := Differ(WireBits(a), WireBits(b));
    Fold8Linear(0, 0, a, b);
    SelfXor(0, Fold8(0, a), Fold8(0, b));
    Fold8IsFeed(0, XorBytes(a, b));
    WireBitsOfXor(a, b);
    WindowLeaves(d, from, to, WireBits(a), WireBits(b));
    if Fold8(0, a) == Fold8(0, b) {
      Align8Injective(d[from..to]);
      AllSame(WireBits(a), WireBits(b), from, to);
      WireBitsInjective(a, b);
      assert false;
    }
  }

  lemma WindowLeaves(d: seq<bool>, from: nat, to: nat, a: seq<bool>, b: seq<bool>)
    requires |a| == |b| && d == Differ(a, b) && from <= to <= |a| && to - from <= 8
    requires a[..from] == b[..from] && a[to..] == b[to..]
    ensures Feed8(0, d) == 0 ==> Align8(d[from..to]) == 0
  {
    hide Feed8, Shifts8, Align8, Xor8;
    assert d == d[..from] + d[from..to] + d[to..];
    assert AllClear(d[..from]) && AllClear(d[to..]) by {
      assert forall i | 0 <= i < from :: a[i] == a[..from][i] == b[..from][i];
      assert forall i | to <= i < |a| :: a[i] == a[to..][i - to] == b[to..][i - to];
    }
    var w := d[from..to];
    Feed8Twice(0, d[..from] + w, d[to..]);
    Feed8Twice(0, d[..from], w);
    Feed8Clear(0, d[..from]);
    Shifts8Zero(from);
    Feed8IsAlign(0, w);
    SelfXor(Align8(w), 0, 0);
    Feed8Clear(Shifts8(Align8(w), |w|), d[to..]);
    if Feed8(0, d) == 0 {
      Shifts8Zero(|a| - to);
      Shifts8Injective(Shifts8(Align8(w), |w|), 0, |a| - to);
      Shifts8Zero(|w|);
      Shifts8Injective(Align8(w), 0, |w|);
    }
  }

  lemma {:induction false} WireBitsInjective(a: seq<byte>, b: seq<byte>)
    requires WireBits(a) == WireBits(b)
    ensures a == b
    decreases |a|
  {
    assert |a| == |b|;
    if a != [] {
      HeadWireBits(a);
      HeadWireBits(b);
      ByteIsAligned(a[0]);
      ByteIsAligned(b[0]);
      hide LowFirst, Align8;
      EightBits(a[0]);
      EightBits(b[0]);
      WireBitsInjective(a[1..], b[1..]);
      assert a == [a[0]] + a[1..] && b == [b[0]] + b[1..];
    }
  }

  lemma HeadWireBits(a: seq<byte>)
    requires a != []
    ensures WireBits(a)[..8] == LowFirst(a[0]) && WireBits(a)[8..] == WireBits(a[1..])
  {
  }

  /** No change of a single byte preserves the CRC-8. */
  lemma ByteChangesCrc8(prefix: seq<byte>, x: byte, y: byte, suffix: seq<byte>)
    requires x != y
    ensures Fold8(0, prefix + [x] + suffix) != Fold8(0, prefix + [y] + suffix)
  {
    hide Step8, Fold8;
    var c := Fold8(0, prefix);
    Fold8Mark(prefix, x, suffix);
    Fold8Mark(prefix, y, suffix);
    if Fold8(Step8(c, x), suffix) == Fold8(Step8(c, y), suffix) {
      Fold8Injective(Step8(c, x), Step8(c, y), suffix);
      Step8Injective(c, c, x, y);
    }
  }
}
