/** Small shared vocabulary: optional values, floats with an explicit finite flag, and
    real and integer helpers that the firmware takes from the C library. */
module Common {

  datatype Option<+T> = None | Some(value: T)

  /** A C `float`: either a finite value, modelled as a real, or a NaN or an infinity. */
  datatype Float = Finite(v: real) | NotFinite

  function Abs(x: real): real {
    if x < 0.0 then -x else x
  }

  function Max(x: real, y: real): real {
    if x < y then y else x
  }

  function Min(x: real, y: real): real {
    if x < y then x else y
  }

  function Ceil(x: real): int {
    -((-x).Floor)
  }

  const U64_MAX: nat := 0xFFFF_FFFF_FFFF_FFFF
  const U32_RANGE: nat := 0x1_0000_0000

  /** Unsigned 32-bit difference of two millisecond stamps. */
  function Elapsed32(now: nat, since: nat): nat {
    (now - since) % U32_RANGE
  }

  /** Unsigned 8-bit difference of two wrapping sequence counters. */
  function Distance8(write: nat, read: nat): nat {
    (write - read) % 256
  }

  lemma MulMono(a: real, b: real, k: real)
    requires a <= b && k >= 0.0
    ensures a * k <= b * k
  {
  }

  lemma DivBound(num: real, den: real, q: real)
    requires den > 0.0
    ensures q <= num / den <==> q * den <= num
  {
    assert num == num / den * den;
    if q <= num / den { MulMono(q, num / den, den); }
    if q > num / den { assert (q - num / den) * den > 0.0; }
  }
}
