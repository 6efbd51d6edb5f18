/** Bytes, numbers written big-endian, and exclusive or. */
module Bytes {

  type Byte = x: int | 0 <= x < 256

  // ----- big-endian numbers

  function Power(width: nat): nat {
    if width == 0 then 1 else 256 * Power(width - 1)
  }

  function BigEndian(n: nat, width: nat): (b: seq<Byte>)
    ensures |b| == width
  {
    if width == 0 then [] else BigEndian(n / 256, width - 1) + [n % 256]
  }

  function Value(b: seq<Byte>): nat {
    if b == [] then 0 else 256 * Value(b[..|b| - 1]) + b[|b| - 1]
  }

  lemma {:induction false} BigEndianReadsBack(n: nat, width: nat)
    requires n < Power(width)
    ensures Value(BigEndian(n, width)) == n
  {
    if width > 0 {
      BigEndianReadsBack(n / 256, width - 1);
      var b := BigEndian(n, width);
      assert b[..|b| - 1] == BigEndian(n / 256, width - 1);
    }
  }

  // ----- exclusive or, bit by bit

  function Low(a: nat): nat { a % 2 }

  function Half(a: nat): nat { a / 2 }

  function XorBits(a: nat, b: nat, bits: nat): (r: nat)
    requires a < Two(bits) && b < Two(bits)
    ensures r < Two(bits)
    decreases bits
  {
    if bits == 0 then 0 else Low(Low(a) + Low(b)) + 2 * XorBits(Half(a), Half(b), bits - 1)
  }

  function Two(bits: nat): nat {
    if bits == 0 then 1 else 2 * Two(bits - 1)
  }

  lemma Rejoined(bit: nat, rest: nat, a: nat)
    requires bit < 2
    ensures Low(bit + 2 * rest) == bit && Half(bit + 2 * rest) == rest && Low(a) + 2 * Half(a) == a && Low(a) < 2
  {
  }

  lemma BitUndone(a: nat, b: nat)
    ensures Low(Low(Low(a) + Low(b)) + Low(b)) == Low(a)
  {
  }

  lemma {:induction false} XorBitsUndone(a: nat, b: nat, bits: nat)
    requires a < Two(bits) && b < Two(bits)
    ensures XorBits(XorBits(a, b, bits), b, bits) == a
    decreases bits
  {
    if bits == 0 {
    } else {
      hide XorBits, Two, Low, Half;
      LowBit(a, b, bits);
      var r, rest := XorBits(a, b, bits), XorBits(Half(a), Half(b), bits - 1);
      LowBit(r, b, bits);
      Rejoined(Low(Low(a) + Low(b)), rest, a);
      BitUndone(a, b);
      XorBitsUndone(Half(a), Half(b), bits - 1);
      assert XorBits(r, b, bits) == Low(a) + 2 * Half(a);
    }
  }

  lemma LowBit(a: nat, b: nat, bits: nat)
    requires bits > 0 && a < Two(bits) && b < Two(bits)
    ensures Half(a) < Two(bits - 1) && Half(b) < Two(bits - 1) && Low(Low(a) + Low(b)) < 2
    ensures XorBits(a, b, bits) == Low(Low(a) + Low(b)) + 2 * XorBits(Half(a), Half(b), bits - 1)
  {
  }

  lemma ByteBits()
    ensures Two(8) == 256
  {
    assert Two(4) == 16;
  }

  function Xor(a: Byte, b: Byte): Byte {
    ByteBits();
    XorBits(a, b, 8)
  }

  lemma XorUndone(a: Byte, b: Byte)
    ensures Xor(Xor(a, b), b) == a
  {
    hide XorBits;
    ByteBits();
    XorBitsUndone(a, b, 8);
  }
}
