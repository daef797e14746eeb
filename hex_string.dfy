/**
 * Qt's HexString<T>, which the painter appends to its cache keys.  The
 * Qt header defining it is not part of this model; what the keys rely on
 * is that it writes a fixed number of hexadecimal digits per integer type
 * (two per byte of T) and that different values of T give different text.
 * The model writes the digits least significant nibble first, the order
 * Qt's byte-by-byte writer produces on a little-endian host.
 */
module HexString {

  function Pow16(digits: nat): (r: nat)
    ensures r >= 1
  {
    if digits == 0 then 1 else 16 * Pow16(digits - 1)
  }

  function HexDigit(n: int): (c: char)
    requires 0 <= n < 16
  {
    if n < 10 then ('0' as int + n) as char else ('a' as int + n - 10) as char
  }

  lemma HexDigitInjective(m: int, n: int)
    requires 0 <= m < 16 && 0 <= n < 16
    ensures HexDigit(m) == HexDigit(n) ==> m == n
  {
  }

  /** `digits` hexadecimal digits of v, least significant first. */
  function Hex(v: nat, digits: nat): (r: string)
    ensures |r| == digits
  {
    if digits == 0 then [] else [HexDigit(v % 16)] + Hex(v / 16, digits - 1)
  }

  /** The encoding is injective on the values that fit the width. */
  lemma {:induction false} HexInjective(a: nat, b: nat, digits: nat)
    requires a < Pow16(digits) && b < Pow16(digits)
    requires Hex(a, digits) == Hex(b, digits)
    ensures a == b
  {
    if digits > 0 {
      HexDigitInjective(a % 16, b % 16);
      assert Hex(a, digits)[0] == HexDigit(a % 16);
      assert Hex(a / 16, digits - 1) == Hex(a, digits)[1..];
      assert Hex(b / 16, digits - 1) == Hex(b, digits)[1..];
      HexInjective(a / 16, b / 16, digits - 1);
    }
  }

  /** Zero is written as a run of '0' digits. */
  lemma {:induction false} HexZero(digits: nat)
    ensures forall i :: 0 <= i < digits ==> Hex(0, digits)[i] == '0'
  {
    if digits > 0 {
      HexZero(digits - 1);
      assert Hex(0, digits) == ['0'] + Hex(0, digits - 1);
    }
  }

  const Two8: nat := 0x100
  const Two32: nat := 0x1_0000_0000
  const Two64: nat := 0x1_0000_0000_0000_0000

  lemma {:induction false} Pow16Add(m: nat, n: nat)
    ensures Pow16(m + n) == Pow16(m) * Pow16(n)
  {
    if m > 0 {
      Pow16Add(m - 1, n);
    }
  }

  lemma Pow16Of2()
    ensures Pow16(2) == Two8
  {
  }

  lemma Pow16Of8()
    ensures Pow16(8) == Two32
  {
    Pow16Add(4, 4);
    assert Pow16(4) == 0x1_0000;
  }

  lemma Pow16Of16()
    ensures Pow16(16) == Two64
  {
    Pow16Of8();
    Pow16Add(8, 8);
  }

  /** HexString<uchar>: the low byte of v, two digits. */
  function HexString8(v: int): (r: string)
    ensures |r| == 2
  {
    Hex(v % Two8, 2)
  }

  /** HexString<uint> and HexString<gint>: the 32-bit two's-complement pattern of v, eight digits. */
  function HexString32(v: int): (r: string)
    ensures |r| == 8
  {
    Hex(v % Two32, 8)
  }

  /** HexString<quint64>: the 64-bit pattern of v, sixteen digits. */
  function HexString64(v: int): (r: string)
    ensures |r| == 16
  {
    Hex(v % Two64, 16)
  }

  /** Values that a 32-bit C++ integer of one signedness can hold. */
  predicate SameWidth32(a: int, b: int)
  {
    (0 <= a < Two32 && 0 <= b < Two32) || (-0x8000_0000 <= a < 0x8000_0000 && -0x8000_0000 <= b < 0x8000_0000)
  }

  lemma HexString8Injective(a: int, b: int)
    requires 0 <= a < Two8 && 0 <= b < Two8
    requires HexString8(a) == HexString8(b)
    ensures a == b
  {
    Pow16Of2();
    HexInjective(a % Two8, b % Two8, 2);
  }

  lemma HexString32Injective(a: int, b: int)
    requires SameWidth32(a, b)
    requires HexString32(a) == HexString32(b)
    ensures a == b
  {
    var x, y := a % Two32, b % Two32;
    Pow16Of8();
    HexInjective(x, y, 8);
    assert x == y;
  }

  lemma HexString64Injective(a: int, b: int)
    requires 0 <= a < Two64 && 0 <= b < Two64
    requires HexString64(a) == HexString64(b)
    ensures a == b
  {
    var x, y := a % Two64, b % Two64;
    Pow16Of16();
    HexInjective(x, y, 16);
    assert x == y;
  }
}
