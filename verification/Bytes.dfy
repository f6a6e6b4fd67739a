/** Octets and the big-endian integers of the wire formats. */
module Bytes {
  type byte = b: int | 0 <= b < 256

  /** `(value >> 8) & 0xff, value & 0xff`: the value modulo 2^16. Of a value below 2^16 nothing is lost. */
  function U16(value: nat): (r: seq<byte>)
    ensures |r| == 2
    ensures value < 0x1_0000 ==> value / 256 % 256 * 256 + value % 256 == value
  {
    [value / 256 % 256, value % 256]
  }

  function ReadU16(high: byte, low: byte): nat {
    high * 256 + low
  }

  /** The four octets of the value modulo 2^32. */
  function U32(value: nat): (r: seq<byte>)
    ensures |r| == 4
  {
    [value / 0x100_0000 % 256, value / 0x1_0000 % 256, value / 256 % 256, value % 256]
  }

  function ReadU32(a: byte, b: byte, c: byte, d: byte): nat {
    a * 0x100_0000 + b * 0x1_0000 + c * 256 + d
  }

  lemma ReadBackU16(value: nat)
    ensures ReadU16(U16(value)[0], U16(value)[1]) == value % 0x1_0000
  {
    var x := value / 256;
    var rest := x % 256 * 256 + value % 256;
    LowWord(value, x / 256, rest);
  }

  lemma LowWord(value: nat, quotient: nat, rest: nat)
    requires value == quotient * 0x1_0000 + rest && rest < 0x1_0000
    ensures value % 0x1_0000 == rest
  {
  }

  lemma LowDoubleWord(value: nat, quotient: nat, rest: nat)
    requires value == quotient * 0x1_0000_0000 + rest && rest < 0x1_0000_0000
    ensures value % 0x1_0000_0000 == rest
  {
  }

  lemma DividedAgain(value: nat)
    ensures value / 0x1_0000 == value / 256 / 256
    ensures value / 0x100_0000 == value / 256 / 256 / 256
  {
  }

  lemma ReadBackU32(value: nat)
    ensures ReadU32(U32(value)[0], U32(value)[1], U32(value)[2], U32(value)[3]) == value % 0x1_0000_0000
  {
    DividedAgain(value);
    DigitsOf(value, value / 256, value / 256 / 256, value / 256 / 256 / 256);
  }

  lemma DigitsOf(value: nat, a: nat, b: nat, c: nat)
    requires a == value / 256 && b == a / 256 && c == b / 256
    ensures c % 256 * 0x100_0000 + b % 256 * 0x1_0000 + a % 256 * 0x100 + value % 256 == value % 0x1_0000_0000
  {
    LowDoubleWord(value, c / 256, c % 256 * 0x100_0000 + b % 256 * 0x1_0000 + a % 256 * 0x100 + value % 256);
  }

  lemma SmallU16(value: nat)
    requires value < 0x1_0000
    ensures ReadU16(U16(value)[0], U16(value)[1]) == value
  {
    ReadBackU16(value);
  }

  lemma SmallU32(value: nat)
    requires value < 0x1_0000_0000
    ensures ReadU32(U32(value)[0], U32(value)[1], U32(value)[2], U32(value)[3]) == value
  {
    ReadBackU32(value);
    LowDoubleWord(value, 0, value);
  }
}
