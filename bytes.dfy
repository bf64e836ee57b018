/**
 The .NET integer widths that the two WAV writers use, the unchecked arithmetic and casts
 of C#, and the little-endian byte layouts produced by System.BitConverter.GetBytes (on a
 little-endian host) and System.IO.BinaryWriter.Write, with their readers.
 */
module Bytes {

  newtype byte = b: int | 0 <= b < 0x100

  const TwoTo16: int := 0x1_0000
  const TwoTo32: int := 0x1_0000_0000

  /** C# `int` */
  type Int32 = x: int | -0x8000_0000 <= x < 0x8000_0000
  /** C# `uint`: the value a reader sees in a 4-byte unsigned field */
  type UInt32 = x: int | 0 <= x < 0x1_0000_0000
  /** C# `short` */
  type Int16 = x: int | -0x8000 <= x < 0x8000
  /** C# `ushort` */
  type UInt16 = x: int | 0 <= x < 0x1_0000

  /** The value of an unchecked C# `int` expression whose mathematical value is x:
      the unique 32-bit two's-complement value congruent to x modulo 2^32. */
  function Wrap32(x: int): (r: Int32)
    ensures (x - r) % TwoTo32 == 0
    ensures -0x8000_0000 <= x < 0x8000_0000 ==> r == x
  {
    var m := x % TwoTo32;
    if m < 0x8000_0000 then m else m - TwoTo32
  }

  /** The unchecked cast `(ushort)x` of an `int`: keeps the low 16 bits. */
  function ToUInt16(x: int): (r: UInt16)
    ensures (x - r) % TwoTo16 == 0
    ensures 0 <= x < TwoTo16 ==> r == x
  {
    x % TwoTo16
  }

  /** Doubling commutes with the `(ushort)` cast: only the low 16 bits of x matter. */
  lemma ToUInt16Twice(x: int)
    ensures ToUInt16(2 * x) == ToUInt16(2 * ToUInt16(x))
  {
    var q, r := x / TwoTo16, x % TwoTo16;
    if 2 * r < TwoTo16 {
      DivModOf(2 * x, TwoTo16, 2 * q, 2 * r);
      DivModOf(2 * r, TwoTo16, 0, 2 * r);
    } else {
      DivModOf(2 * x, TwoTo16, 2 * q + 1, 2 * r - TwoTo16);
      DivModOf(2 * r, TwoTo16, 1, 2 * r - TwoTo16);
    }
  }

  /** Adding to a value already reduced modulo 2^32 gives the same residue as adding to the value. */
  lemma AddMod32(x: int, k: int)
    ensures (x % TwoTo32 + k) % TwoTo32 == (x + k) % TwoTo32
  {
    var q, r := x / TwoTo32, x % TwoTo32;
    DivModOf(x + k, TwoTo32, q + (r + k) / TwoTo32, (r + k) % TwoTo32);
  }

  /** C#'s integer division `a / b`, which truncates toward zero (Dafny's `/` is Euclidean). */
  function DivTrunc(a: int, b: int): (q: int)
    requires b > 0
    ensures a >= 0 ==> q * b <= a < q * b + b
    ensures a < 0 ==> q * b - b < a <= q * b
  {
    if a >= 0 then a / b else -((-a) / b)
  }

  /** Two bytes, least significant first. */
  function LE16(x: UInt16): (r: seq<byte>)
    ensures |r| == 2
  {
    [(x % 0x100) as byte, (x / 0x100) as byte]
  }

  /** Four bytes, least significant first. */
  function LE32(x: UInt32): (r: seq<byte>)
    ensures |r| == 4
  {
    [(x % 0x100) as byte, (x / 0x100 % 0x100) as byte,
     (x / 0x1_0000 % 0x100) as byte, (x / 0x100_0000) as byte]
  }

  /** Reads a little-endian unsigned 16-bit field. */
  function U16(b: seq<byte>): UInt16
    requires |b| == 2
  {
    b[0] as int + 0x100 * b[1] as int
  }

  /** Reads a little-endian unsigned 32-bit field. */
  function U32(b: seq<byte>): UInt32
    requires |b| == 4
  {
    b[0] as int + 0x100 * b[1] as int + 0x1_0000 * b[2] as int + 0x100_0000 * b[3] as int
  }

  /** Reads a little-endian two's-complement 16-bit field. */
  function S16(b: seq<byte>): Int16
    requires |b| == 2
  {
    var u := U16(b);
    if u < 0x8000 then u else u - TwoTo16
  }

  /** BitConverter.GetBytes(int) and BinaryWriter.Write(int): the four bytes of the value's
      two's-complement form, which a reader sees as the value modulo 2^32. */
  function Int32Bytes(v: Int32): (r: seq<byte>)
    ensures |r| == 4 && U32(r) == v % TwoTo32
  {
    LE32RoundTrip(v % TwoTo32);
    LE32(v % TwoTo32)
  }

  /** BitConverter.GetBytes(ushort) and BinaryWriter.Write(ushort). The layout is LE16's; the
      name is kept so that the `ushort` overload both writers call reads as such. */
  function UInt16Bytes(v: UInt16): (r: seq<byte>)
    ensures |r| == 2 && U16(r) == v
  {
    LE16(v)
  }

  /** BitConverter.GetBytes(short) and BinaryWriter.Write(short): the two bytes of the value's
      two's-complement form, which reads back as the same signed value. */
  function Int16Bytes(v: Int16): (r: seq<byte>)
    ensures |r| == 2 && S16(r) == v
  {
    LE16RoundTrip(v % TwoTo16);
    LE16(v % TwoTo16)
  }

  /** System.Text.Encoding.UTF8.GetBytes of a string of ASCII characters: one byte per character. */
  function Ascii(s: string): (r: seq<byte>)
    requires forall i :: 0 <= i < |s| ==> s[i] as int < 0x80
    ensures |r| == |s|
    ensures forall i :: 0 <= i < |s| ==> r[i] as int == s[i] as int
  {
    seq(|s|, i requires 0 <= i < |s| => s[i] as int as byte)
  }

  lemma LE16RoundTrip(x: UInt16)
    ensures U16(LE16(x)) == x
  {
  }

  lemma U16RoundTrip(b: seq<byte>)
    requires |b| == 2
    ensures LE16(U16(b)) == b
  {
    var x := U16(b);
    assert x % 0x100 == b[0] as int;
    assert x / 0x100 == b[1] as int;
  }

  lemma LE32RoundTrip(x: UInt32)
    ensures U32(LE32(x)) == x
  {
    assert x == x % 0x100 + 0x100 * (x / 0x100);
    assert x / 0x100 == x / 0x100 % 0x100 + 0x100 * (x / 0x1_0000);
    assert x / 0x1_0000 == x / 0x1_0000 % 0x100 + 0x100 * (x / 0x100_0000);
  }

  lemma U32RoundTrip(b: seq<byte>)
    requires |b| == 4
    ensures LE32(U32(b)) == b
  {
    var x := U32(b);
    var b0, b1, b2, b3 := b[0] as int, b[1] as int, b[2] as int, b[3] as int;
    DivModOf(x, 0x100, b1 + 0x100 * b2 + 0x1_0000 * b3, b0);
    DivModOf(x, 0x1_0000, b2 + 0x100 * b3, b0 + 0x100 * b1);
    DivModOf(x, 0x100_0000, b3, b0 + 0x100 * b1 + 0x1_0000 * b2);
    DivModOf(b1 + 0x100 * b2 + 0x1_0000 * b3, 0x100, b2 + 0x100 * b3, b1);
    DivModOf(b2 + 0x100 * b3, 0x100, b3, b2);
  }

  /** Division with remainder is unique. */
  lemma DivModOf(x: int, d: int, q: int, r: int)
    requires d > 0 && 0 <= r < d && x == q * d + r
    ensures x / d == q && x % d == r
  {
    var q0, r0 := x / d, x % d;
    assert (q - q0) * d == r0 - r;
    MulBelow(q - q0, d);
    MulBelow(q0 - q, d);
  }

  /** Reducing modulo 2^32 leaves a value in 0..2^32-1 unchanged. */
  lemma Mod32Small(x: int)
    ensures 0 <= x < TwoTo32 ==> x % TwoTo32 == x
  {
    if 0 <= x < TwoTo32 {
      DivModOf(x, TwoTo32, 0, x);
    }
  }

  /** A product of non-negative numbers is non-negative. */
  lemma MulNonNegative(a: int, b: int)
    requires 0 <= a && 0 <= b
    ensures 0 <= a * b
  {
  }

  /** The only multiple of d strictly between -d and d is 0. */
  lemma MulBelow(k: int, d: int)
    requires d > 0 && -d < k * d < d
    ensures k == 0
  {
  }

  /** Every two bytes are the encoding of the `short` they read as. */
  lemma S16RoundTrip(b: seq<byte>)
    requires |b| == 2
    ensures Int16Bytes(S16(b)) == b
  {
    U16RoundTrip(b);
  }

  /** Writing the wrapped value of an unchecked `int` expression writes its low 32 bits. */
  lemma Int32BytesOfWrap(x: int)
    ensures Int32Bytes(Wrap32(x)) == LE32(x % TwoTo32)
  {
    assert Wrap32(x) % TwoTo32 == x % TwoTo32;
  }

  /** Casting a wrapped `int` expression to `ushort` keeps the low 16 bits of its exact value. */
  lemma ToUInt16OfWrap(x: int)
    ensures ToUInt16(Wrap32(x)) == ToUInt16(x)
  {
    var m := x % TwoTo32;
    var k := x / TwoTo32;
    assert x == k * TwoTo32 + m;
    assert k * TwoTo32 == (k * 0x1_0000) * TwoTo16;
    assert m % TwoTo16 == x % TwoTo16;
    assert (m - TwoTo32) % TwoTo16 == m % TwoTo16;
  }

  /** A 4-byte field written from a wrapped `int` reads back as the exact value when that fits. */
  lemma Int32FieldReadsBack(x: int)
    requires 0 <= x < TwoTo32
    ensures U32(Int32Bytes(Wrap32(x))) == x
  {
    Int32BytesOfWrap(x);
    assert x % TwoTo32 == x;
    LE32RoundTrip(x);
  }
}
