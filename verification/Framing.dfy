/** The two framings built on the checksums: CRC-protected request lines of the host simulator,
    and the offline firmware package envelope. */
module Framing {
  import opened Common
  import opened Crc
  import opened Crc8

  // ----- Request lines -----

  const SPACE: byte := 0x20
  const STAR: byte := 0x2A
  const LF: byte := 0x0A
  const CR: byte := 0x0D
  const REQ: seq<byte> := [0x52, 0x45, 0x51]

  /** Upper-case hexadecimal digit of a nibble. */
  function Digit(n: bv16): byte
    requires n < 16
  {
    if n < 10 then (n as bv8) + 0x30 else (n as bv8) + 0x37
  }

  function Hex4(c: bv16): seq<byte> {
    [Digit(c >> 12), Digit((c >> 8) & 0xF), Digit((c >> 4) & 0xF), Digit(c & 0xF)]
  }

  function EncodeFrame(body: seq<byte>): seq<byte> {
    body + [SPACE, STAR] + Hex4(Fold(SEED, body)) + [LF]
  }

  function Stripped(line: seq<byte>): seq<byte> {
    if line != [] && (line[|line| - 1] == LF || line[|line| - 1] == CR) then Stripped(line[..|line| - 1]) else line
  }

  predicate MarkAt(s: seq<byte>, i: nat) {
    i + 1 < |s| && s[i] == SPACE && s[i + 1] == STAR
  }

  /** Where the last separator of a line begins. */
  function LastMark(s: seq<byte>, end: nat): (m: Option<nat>)
    ensures m.None? ==> forall i | 0 <= i < end :: !MarkAt(s, i)
    ensures m.Some? ==> m.value < end && MarkAt(s, m.value) && forall i | m.value < i < end :: !MarkAt(s, i)
  {
    if end == 0 then None else if MarkAt(s, end - 1) then Some(end - 1) else LastMark(s, end - 1)
  }

  function Split(s: seq<byte>): (tokens: seq<seq<byte>>)
    ensures |tokens| >= 1
  {
    if s == [] then [[]]
    else
      var rest := Split(s[1..]);
      if s[0] == SPACE then [[]] + rest else [[s[0]] + rest[0]] + rest[1..]
  }

  predicate Ascii(s: seq<byte>) {
    forall i | 0 <= i < |s| :: s[i] < 0x80
  }

  /** A parsed checksum: a 16-bit value, or a number outside that range. */
  datatype Number = Within(v: bv16) | Outside

  /** How decimal identifiers and hexadecimal checksums are read from text. */
  type Ids = seq<byte> -> Option<int>
  type Reader = seq<byte> -> Option<Number>

  /** Four upper-case digits read back as the value they render; other texts are unconstrained. */
  ghost predicate Reads(reader: Reader) {
    forall c: bv16 :: reader(Hex4(c)) == Some(Within(c))
  }

  predicate WellFormed(body: seq<byte>, ids: Ids) {
    Ascii(body) && var t := Split(body); |t| >= 3 && [] !in t && t[0] == REQ && ids(t[1]).Some?
  }

  datatype Reply = BadFrame(id: int) | BadCrc(id: int) | Framed(id: int, body: seq<byte>)

  /** The framing part of process_line. */
  function ProcessLine(line: seq<byte>, ids: Ids, reader: Reader): Reply {
    var s := Stripped(line);
    var m := LastMark(s, |s|);
    if m.None? then BadFrame(0)
    else
      var body, text := s[..m.value], s[m.value + 2..];
      if !WellFormed(body, ids) then BadFrame(0)
      else
        var id := ids(Split(body)[1]).value;
        match reader(text)
        case None => BadFrame(id)
        case Some(n) => if n == Within(Fold(SEED, body)) then Framed(id, body) else BadCrc(id)
  }

  lemma DigitIsText(n: bv16)
    requires n < 16
    ensures Digit(n) != SPACE && Digit(n) != LF && Digit(n) != CR && Digit(n) != STAR
  {
  }

  lemma HexIsText(c: bv16)
    ensures |Hex4(c)| == 4 && forall i | 0 <= i < 4 :: Hex4(c)[i] != SPACE && Hex4(c)[i] != LF && Hex4(c)[i] != CR
  {
    Nibbles(c);
    hide Digit;
    DigitIsText(c >> 12);
    DigitIsText((c >> 8) & 0xF);
    DigitIsText((c >> 4) & 0xF);
    DigitIsText(c & 0xF);
  }

  lemma Nibbles(c: bv16)
    ensures c >> 12 < 16 && (c >> 8) & 0xF < 16 && (c >> 4) & 0xF < 16 && c & 0xF < 16
  {
  }

  /** A line ending in a separator and four digits is split exactly there. */
  lemma SplitAtMark(body: seq<byte>, c: bv16)
    ensures var s := body + [SPACE, STAR] + Hex4(c);
            Stripped(s + [LF]) == s && LastMark(s, |s|) == Some(|body|) && s[..|body|] == body && s[|body| + 2..] == Hex4(c)
  {
    HexIsText(c);
    hide Hex4;
    var h := Hex4(c);
    var s := body + [SPACE, STAR] + h;
    assert s[|s| - 1] == h[3];
    assert (s + [LF])[..|s|] == s;
    assert MarkAt(s, |body|);
    forall i | |body| < i < |s|
      ensures !MarkAt(s, i)
    {
      if i > |body| + 1 { assert s[i] == h[i - |body| - 2]; }
    }
  }

  /** Whatever body a frame wraps, it is recovered exactly, unless it is not a request at all. */
  lemma FrameRoundTrip(body: seq<byte>, ids: Ids, reader: Reader)
    requires Reads(reader)
    ensures ProcessLine(EncodeFrame(body), ids, reader)
         == if WellFormed(body, ids) then Framed(ids(Split(body)[1]).value, body) else BadFrame(0)
  {
    hide WellFormed, Fold, Split;
    SplitAtMark(body, Fold(SEED, body));
    hide Hex4, Stripped, LastMark;
    var s := body + [SPACE, STAR] + Hex4(Fold(SEED, body));
    assert EncodeFrame(body) == s + [LF];
    assert reader(Hex4(Fold(SEED, body))) == Some(Within(Fold(SEED, body)));
  }

  /** Anything accepted carries, after its last separator, text that reads as the body's checksum. */
  lemma AcceptedCarriesChecksum(line: seq<byte>, ids: Ids, reader: Reader)
    requires ProcessLine(line, ids, reader).Framed?
    ensures var r := ProcessLine(line, ids, reader);
            && WellFormed(r.body, ids)
            && exists text :: Stripped(line) == r.body + [SPACE, STAR] + text && reader(text) == Some(Within(Fold(SEED, r.body)))
  {
    hide WellFormed, Fold, Stripped;
    var s := Stripped(line);
    var m := LastMark(s, |s|).value;
    assert s == s[..m] + [SPACE, STAR] + s[m + 2..];
  }

  /** A frame whose body was hit by a burst of up to sixteen bits is never accepted. */
  lemma DamagedFrameRejected(body: seq<byte>, hit: seq<byte>, from: nat, to: nat, ids: Ids, reader: Reader)
    requires Reads(reader) && |body| == |hit| && body != hit && from <= to <= 8 * |body| && to - from <= 16
    requires Bits(body)[..from] == Bits(hit)[..from] && Bits(body)[to..] == Bits(hit)[to..]
    ensures !ProcessLine(hit + EncodeFrame(body)[|body|..], ids, reader).Framed?
  {
    hide WellFormed, Fold, Split, Bits;
    BurstChangesCrc16(body, hit, from, to);
    SplitAtMark(hit, Fold(SEED, body));
    hide Hex4, Stripped, LastMark;
    var s := hit + [SPACE, STAR] + Hex4(Fold(SEED, body));
    assert hit + EncodeFrame(body)[|body|..] == s + [LF];
    assert reader(Hex4(Fold(SEED, body))) == Some(Within(Fold(SEED, body)));
  }

  /** The value of an upper-case hexadecimal digit. */
  function Nibble(b: byte): bv16 {
    if b < 0x40 then (b - 0x30) as bv16 else (b - 0x37) as bv16
  }

  /** A reader of four digits, to show that the requirement on readers can be met. */
  function ReadFour(text: seq<byte>): Option<Number> {
    if |text| != 4 then None
    else Some(Within((Nibble(text[0]) << 12) | (Nibble(text[1]) << 8) | (Nibble(text[2]) << 4) | Nibble(text[3])))
  }

  lemma NibbleOfDigit(n: bv16)
    requires n < 16
    ensures Nibble(Digit(n)) == n
  {
  }

  lemma Joined(c: bv16)
    ensures ((c >> 12) << 12) | (((c >> 8) & 0xF) << 8) | (((c >> 4) & 0xF) << 4) | (c & 0xF) == c
  {
  }

  lemma ReadFourReads()
    ensures Reads(ReadFour)
  {
    forall c: bv16
      ensures ReadFour(Hex4(c)) == Some(Within(c))
    {
      Nibbles(c);
      hide Digit, Nibble;
      NibbleOfDigit(c >> 12);
      NibbleOfDigit((c >> 8) & 0xF);
      NibbleOfDigit((c >> 4) & 0xF);
      NibbleOfDigit(c & 0xF);
      Joined(c);
    }
  }

  // ----- Package envelopes -----

  const MARK: byte := 0x23
  const CHUNK: nat := 8192

  datatype Outcome<T> = Ok(value: T) | Rejected

  function Bit(b: bool): nat {
    if b then 1 else 0
  }

  function Quad(b3: bool, b2: bool, b1: bool, b0: bool): (n: nat)
    ensures n < 16
  {
    8 * Bit(b3) + 4 * Bit(b2) + 2 * Bit(b1) + Bit(b0)
  }

  /** The number eight bits stand for. */
  function Sum(b7: bool, b6: bool, b5: bool, b4: bool, b3: bool, b2: bool, b1: bool, b0: bool): nat {
    16 * Quad(b7, b6, b5, b4) + Quad(b3, b2, b1, b0)
  }

  function Join(b7: bool, b6: bool, b5: bool, b4: bool, b3: bool, b2: bool, b1: bool, b0: bool): byte {
    (if b7 then 0x80 else 0) | (if b6 then 0x40 else 0) | (if b5 then 0x20 else 0) | (if b4 then 0x10 else 0)
    | (if b3 then 0x08 else 0) | (if b2 then 0x04 else 0) | (if b1 then 0x02 else 0) | (if b0 then 0x01 else 0)
  }

  /** The value of a byte, and the byte of a value. */
  function Value(b: byte): nat {
    Sum(b & 0x80 != 0, b & 0x40 != 0, b & 0x20 != 0, b & 0x10 != 0, b & 0x08 != 0, b & 0x04 != 0, b & 0x02 != 0, b & 0x01 != 0)
  }

  function Halved(n: nat, k: nat): nat {
    if k == 0 then n else Halved(n, k - 1) / 2
  }

  predicate Odd(n: nat, k: nat) {
    Halved(n, k) % 2 == 1
  }

  function LowByte(n: nat): byte {
    Join(Odd(n, 7), Odd(n, 6), Odd(n, 5), Odd(n, 4), Odd(n, 3), Odd(n, 2), Odd(n, 1), Odd(n, 0))
  }

  /** A 16-bit little-endian length. */
  function Length16(a: byte, b: byte): nat {
    Value(a) + 256 * Value(b)
  }

  function FramePayload(payload: seq<byte>, remaining: int): Outcome<seq<byte>> {
    if !(0 < |payload| <= CHUNK) || !(0 <= remaining <= 255) then Rejected
    else Ok([MARK, LowByte(remaining), MARK, LowByte(|payload|), LowByte(|payload| / 256)] + payload + [Fold8(0, payload)])
  }

  function ExtractFrame(frame: seq<byte>): Outcome<seq<byte>> {
    if |frame| < 7 || frame[0] != MARK || frame[2] != MARK then Rejected
    else
      var length := Length16(frame[3], frame[4]);
      if !(0 < length <= CHUNK) || |frame| != length + 6 then Rejected
      else
        var payload := frame[5..|frame| - 1];
        if Fold8(0, payload) != frame[|frame| - 1] then Rejected else Ok(payload)
  }

  lemma ValueOfJoin(b7: bool, b6: bool, b5: bool, b4: bool, b3: bool, b2: bool, b1: bool, b0: bool)
    ensures Value(Join(b7, b6, b5, b4, b3, b2, b1, b0)) == Sum(b7, b6, b5, b4, b3, b2, b1, b0)
  {
    JoinHigh(b7, b6, b5, b4, b3, b2, b1, b0);
    JoinLow(b7, b6, b5, b4, b3, b2, b1, b0);
    hide Join, Sum;
  }

  lemma JoinHigh(b7: bool, b6: bool, b5: bool, b4: bool, b3: bool, b2: bool, b1: bool, b0: bool)
    ensures var b := Join(b7, b6, b5, b4, b3, b2, b1, b0);
            (b & 0x80 != 0 <==> b7) && (b & 0x40 != 0 <==> b6) && (b & 0x20 != 0 <==> b5) && (b & 0x10 != 0 <==> b4)
  {
  }

  lemma JoinLow(b7: bool, b6: bool, b5: bool, b4: bool, b3: bool, b2: bool, b1: bool, b0: bool)
    ensures var b := Join(b7, b6, b5, b4, b3, b2, b1, b0);
            (b & 0x08 != 0 <==> b3) && (b & 0x04 != 0 <==> b2) && (b & 0x02 != 0 <==> b1) && (b & 0x01 != 0 <==> b0)
  {
  }

  lemma HalvedNone(n: nat)
    ensures Halved(n, 0) == n
  {
  }

  lemma HalvedOnce(n: nat, k: nat)
    ensures Halved(n, k) == 2 * Halved(n, k + 1) + Bit(Odd(n, k))
  {
  }

  lemma Remainder(x: nat, low: nat, high: nat)
    requires x == low + 256 * high && low < 256
    ensures x % 256 == low
  {
  }

  lemma Doublings(h0: nat, h1: nat, h2: nat, h3: nat, h4: nat, b3: bool, b2: bool, b1: bool, b0: bool)
    requires h0 == 2 * h1 + Bit(b0) && h1 == 2 * h2 + Bit(b1) && h2 == 2 * h3 + Bit(b2) && h3 == 2 * h4 + Bit(b3)
    ensures h0 == 16 * h4 + Quad(b3, b2, b1, b0)
  {
  }

  lemma FourBits(n: nat, k: nat)
    ensures Halved(n, k) == 16 * Halved(n, k + 4) + Quad(Odd(n, k + 3), Odd(n, k + 2), Odd(n, k + 1), Odd(n, k))
  {
    hide Halved, Odd, Bit, Quad;
    HalvedOnce(n, k);
    HalvedOnce(n, k + 1);
    HalvedOnce(n, k + 2);
    HalvedOnce(n, k + 3);
    Doublings(Halved(n, k), Halved(n, k + 1), Halved(n, k + 2), Halved(n, k + 3), Halved(n, k + 4),
              Odd(n, k + 3), Odd(n, k + 2), Odd(n, k + 1), Odd(n, k));
  }

  lemma Binary(n: nat)
    ensures Sum(Odd(n, 7), Odd(n, 6), Odd(n, 5), Odd(n, 4), Odd(n, 3), Odd(n, 2), Odd(n, 1), Odd(n, 0)) == n % 256
  {
    hide Halved, Odd, Bit, Quad;
    HalvedNone(n);
    FourBits(n, 0);
    FourBits(n, 4);
    Remainder(n, Sum(Odd(n, 7), Odd(n, 6), Odd(n, 5), Odd(n, 4), Odd(n, 3), Odd(n, 2), Odd(n, 1), Odd(n, 0)), Halved(n, 8));
  }

  lemma LowByteBack(n: nat)
    ensures Value(LowByte(n)) == n % 256
  {
    ValueOfJoin(Odd(n, 7), Odd(n, 6), Odd(n, 5), Odd(n, 4), Odd(n, 3), Odd(n, 2), Odd(n, 1), Odd(n, 0));
    Binary(n);
    hide Sum, Join, Value, Odd, Halved, Quad;
  }

  lemma QuadInjective(b3: bool, b2: bool, b1: bool, b0: bool, c3: bool, c2: bool, c1: bool, c0: bool)
    requires Quad(b3, b2, b1, b0) == Quad(c3, c2, c1, c0)
    ensures b3 == c3 && b2 == c2 && b1 == c1 && b0 == c0
  {
  }

  lemma SumInjective(a: byte, b: byte)
    requires Value(a) == Value(b)
    ensures Bits8(a) == Bits8(b)
  {
    hide Quad;
    var p, q := Quad(a & 0x80 != 0, a & 0x40 != 0, a & 0x20 != 0, a & 0x10 != 0), Quad(a & 0x08 != 0, a & 0x04 != 0, a & 0x02 != 0, a & 0x01 != 0);
    var r, s := Quad(b & 0x80 != 0, b & 0x40 != 0, b & 0x20 != 0, b & 0x10 != 0), Quad(b & 0x08 != 0, b & 0x04 != 0, b & 0x02 != 0, b & 0x01 != 0);
    assert p == r && q == s;
    QuadInjective(a & 0x80 != 0, a & 0x40 != 0, a & 0x20 != 0, a & 0x10 != 0, b & 0x80 != 0, b & 0x40 != 0, b & 0x20 != 0, b & 0x10 != 0);
    QuadInjective(a & 0x08 != 0, a & 0x04 != 0, a & 0x02 != 0, a & 0x01 != 0, b & 0x08 != 0, b & 0x04 != 0, b & 0x02 != 0, b & 0x01 != 0);
  }

  lemma ValueInjective(a: byte, b: byte)
    requires Value(a) == Value(b)
    ensures a == b
  {
    SumInjective(a, b);
    hide Value;
    Bits8Injective(a, b);
  }

  lemma LengthBack(n: nat)
    requires n <= CHUNK
    ensures Length16(LowByte(n), LowByte(n / 256)) == n
  {
    hide LowByte, Value;
    LowByteBack(n);
    LowByteBack(n / 256);
  }

  /** What is framed is extracted unchanged, whatever the number of remaining frames. */
  lemma EnvelopeRoundTrip(payload: seq<byte>, remaining: int)
    requires FramePayload(payload, remaining).Ok?
    ensures ExtractFrame(FramePayload(payload, remaining).value) == Ok(payload)
  {
    hide LowByte, Length16, Fold8;
    LengthBack(|payload|);
    var f := FramePayload(payload, remaining).value;
    assert f[5..|f| - 1] == payload;
  }

  /** Shape of an envelope, for the changes below. */
  predicate Envelope(f: seq<byte>, payload: seq<byte>) {
    && 0 < |payload| <= CHUNK && |f| == |payload| + 6 && f[0] == MARK && f[2] == MARK
    && Length16(f[3], f[4]) == |payload| && f[5..|f| - 1] == payload && f[|f| - 1] == Fold8(0, payload)
  }

  lemma FramedIsEnvelope(payload: seq<byte>, remaining: int)
    requires FramePayload(payload, remaining).Ok?
    ensures Envelope(FramePayload(payload, remaining).value, payload)
  {
    hide LowByte, Length16, Fold8;
    LengthBack(|payload|);
  }

  lemma HeaderChange(f: seq<byte>, payload: seq<byte>, k: nat, x: byte)
    requires Envelope(f, payload) && k < 5 && f[k] != x
    ensures ExtractFrame(f[k := x]).Ok? <==> k == 1
  {
    hide Length16, Fold8;
    if k == 3 { Little(f[3], f[4], x); } else if k == 4 { Little(f[3], f[4], x); }
    var g := f[k := x];
    if k == 1 { assert g[5..|g| - 1] == payload; }
  }

  lemma PayloadChange(f: seq<byte>, payload: seq<byte>, k: nat, x: byte)
    requires Envelope(f, payload) && 5 <= k < |f| && f[k] != x
    ensures !ExtractFrame(f[k := x]).Ok?
  {
    hide Length16, Fold8;
    var g := f[k := x];
    if k < |f| - 1 {
      var i := k - 5;
      assert payload[i] == f[k];
      assert payload == payload[..i] + [payload[i]] + payload[i + 1..];
      assert g[5..|g| - 1] == payload[i := x] == payload[..i] + [x] + payload[i + 1..];
      ByteChangesCrc8(payload[..i], payload[i], x, payload[i + 1..]);
    } else {
      assert g[5..|g| - 1] == payload;
    }
  }

  /** Changing one byte of an envelope is noticed, unless it is the unprotected counter. */
  lemma OneByteChange(payload: seq<byte>, remaining: int, k: nat, x: byte)
    requires FramePayload(payload, remaining).Ok? && k < |FramePayload(payload, remaining).value|
    requires FramePayload(payload, remaining).value[k] != x
    ensures ExtractFrame(FramePayload(payload, remaining).value[k := x]).Ok? <==> k == 1
  {
    FramedIsEnvelope(payload, remaining);
    hide FramePayload, ExtractFrame, Envelope;
    if k < 5 { HeaderChange(FramePayload(payload, remaining).value, payload, k, x); }
    else { PayloadChange(FramePayload(payload, remaining).value, payload, k, x); }
  }

  lemma Little(a: byte, b: byte, x: byte)
    ensures x != a ==> Length16(x, b) != Length16(a, b)
    ensures x != b ==> Length16(a, x) != Length16(a, b)
  {
    hide Value;
    if Value(x) == Value(a) { ValueInjective(x, a); }
    if Value(x) == Value(b) { ValueInjective(x, b); }
  }

  // ----- A whole package -----

  function Count(content: seq<byte>): nat {
    (|content| + CHUNK - 1) / CHUNK
  }

  function Chunks(content: seq<byte>): seq<seq<byte>> {
    if content == [] then []
    else if |content| <= CHUNK then [content]
    else [content[..CHUNK]] + Chunks(content[CHUNK..])
  }

  /** Frames the chunks in order, counting down what remains. */
  function FrameAll(chunks: seq<seq<byte>>): Outcome<seq<seq<byte>>> {
    if chunks == [] then Ok([])
    else
      var head, tail := FramePayload(chunks[0], |chunks| - 1), FrameAll(chunks[1..]);
      if head.Ok? && tail.Ok? then Ok([head.value] + tail.value) else Rejected
  }

  function ExtractAll(frames: seq<seq<byte>>): Outcome<seq<byte>> {
    if frames == [] then Ok([])
    else
      var head, tail := ExtractFrame(frames[0]), ExtractAll(frames[1..]);
      if head.Ok? && tail.Ok? then Ok(head.value + tail.value) else Rejected
  }

  lemma {:induction false} ChunkShape(content: seq<byte>)
    ensures |Chunks(content)| == Count(content)
    ensures forall i | 0 <= i < |Chunks(content)| :: 0 < |Chunks(content)[i]| <= CHUNK
    decreases |content|
  {
    if |content| > CHUNK { ChunkShape(content[CHUNK..]); }
  }

  lemma {:induction false} FrameAllOk(chunks: seq<seq<byte>>)
    requires forall i | 0 <= i < |chunks| :: 0 < |chunks[i]| <= CHUNK
    ensures FrameAll(chunks).Ok? <==> |chunks| <= 256
    decreases |chunks|
  {
    if chunks != [] { FrameAllOk(chunks[1..]); }
  }

  lemma {:induction false} Reassembled(content: seq<byte>)
    requires FrameAll(Chunks(content)).Ok?
    ensures ExtractAll(FrameAll(Chunks(content)).value) == Ok(content)
    decreases |content|
  {
    hide FramePayload, ExtractFrame;
    if content != [] {
      var chunks := Chunks(content);
      var head := FramePayload(chunks[0], |chunks| - 1);
      EnvelopeRoundTrip(chunks[0], |chunks| - 1);
      var frames := FrameAll(chunks).value;
      assert frames[0] == head.value && frames[1..] == FrameAll(chunks[1..]).value;
      if |content| > CHUNK {
        Reassembled(content[CHUNK..]);
        assert chunks[1..] == Chunks(content[CHUNK..]);
        assert content == content[..CHUNK] + content[CHUNK..];
      } else {
        assert chunks[1..] == [];
        assert content + [] == content;
      }
    }
  }

  /** A package is chunked, framed and reassembled unchanged exactly when it fits 256 chunks. */
  lemma PackageRoundTrip(content: seq<byte>)
    ensures FrameAll(Chunks(content)).Ok? <==> |content| <= 256 * CHUNK
    ensures FrameAll(Chunks(content)).Ok? ==> ExtractAll(FrameAll(Chunks(content)).value) == Ok(content)
  {
    ChunkShape(content);
    FrameAllOk(Chunks(content));
    hide FrameAll, ExtractAll, Chunks;
    if FrameAll(Chunks(content)).Ok? { Reassembled(content); }
  }
}
