/** Shared value types and the 32-bit integer conversions the C# code relies on. */
module Common {

  datatype Option<T> = None | Some(value: T)

  const TwoTo31: int := 0x8000_0000
  const TwoTo32: int := 0x1_0000_0000

  /** The values of a C# `uint` (and of a protobuf `uint32` field). */
  type uint32 = x: int | 0 <= x < TwoTo32

  /** The values of a C# `int`. */
  type int32 = x: int | -TwoTo31 <= x < TwoTo31

  /** C# `(uint)x` (unchecked) of an `int` or `long`: the value modulo 2^32. */
  function ToUInt32(x: int): (r: uint32)
    ensures r < TwoTo32
    ensures 0 <= x < TwoTo32 ==> r == x
    ensures (x - r) % TwoTo32 == 0
  {
    x % TwoTo32
  }

  /** C# `(int)u` (unchecked) of a `uint`: the 32-bit pattern read as two's complement. */
  function ToInt32(u: int): (r: int)
    requires 0 <= u < TwoTo32
    ensures -TwoTo31 <= r < TwoTo31
    ensures ToUInt32(r) == u
    ensures u < TwoTo31 ==> r == u
  {
    if u < TwoTo31 then u else u - TwoTo32
  }

  /** Reading a signed 32-bit value back through its unsigned pattern gives the value itself. */
  lemma Int32RoundTrip(x: int)
    requires -TwoTo31 <= x < TwoTo31
    ensures ToInt32(ToUInt32(x)) == x
  {
  }

  /** Adding to a value already cut to 32 bits gives the cut of the full sum. */
  lemma ToUInt32Add(a: int, b: int)
    ensures ToUInt32(ToUInt32(a) + b) == ToUInt32(a + b)
  {
    var q := a / TwoTo32;
    assert a == q * TwoTo32 + ToUInt32(a);
    ToUInt32Shift(ToUInt32(a) + b, q);
  }

  /** Values that differ by a multiple of 2^32 have the same 32-bit pattern. */
  lemma ToUInt32Shift(x: int, q: int)
    ensures ToUInt32(x + q * TwoTo32) == ToUInt32(x)
  {
    var r := x % TwoTo32;
    var d := x / TwoTo32;
    assert x == d * TwoTo32 + r;
    assert x + q * TwoTo32 == (d + q) * TwoTo32 + r;
  }

  function Min(a: int, b: int): int { if a <= b then a else b }
  function Max(a: int, b: int): int { if a >= b then a else b }

  function Pow2(n: nat): (r: nat)
    ensures r >= 1
  {
    if n == 0 then 1 else 2 * Pow2(n - 1)
  }

  /** Bit `i` of a non-negative number. */
  predicate TestBit(x: nat, i: nat) {
    (x / Pow2(i)) % 2 == 1
  }
}
