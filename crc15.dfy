/** The bit-serial 15-bit checksum that guards every frame on the link wire.

    It uses the CAN generator polynomial 0x4599, but unlike a conforming CAN
    CRC it feeds only the low seven bits of each byte, least significant bit
    first.  The register is held in a 16-bit vector; every step keeps it below
    2^15. */
module Crc15 {
  import opened Common

  const Poly: bv16 := 0x4599
  const Mask: bv16 := 0x7fff

  /** Bits of each byte that are fed into the register. */
  const BitsPerByte: nat := 7

  /** One shift of the register with input bit `bit` (0 or 1): the body of
      the inner loop of `get_crc_15`, which XORs the input bit with bit 14,
      shifts left within 15 bits and, when that XOR is 1, XORs in the
      polynomial. */
  function Step(crc: bv16, bit: bv16): (r: bv16)
    ensures r <= Mask
  {
    var next := bit ^ (crc >> 14);
    var shifted := (crc << 1) & Mask;
    if next != 0 then shifted ^ Poly else shifted
  }

  /** The lowest bit of a byte, as a register value. */
  function LowBit(byte: nat): (r: bv16)
    ensures r == 0 || r == 1
  {
    if byte % 2 == 0 then 0 else 1
  }

  /** Feeds the low `n` bits of `byte` into `crc`, least significant first. */
  function FeedBits(crc: bv16, byte: nat, n: nat): (r: bv16)
    ensures n == 0 ==> r == crc
    ensures n > 0 ==> r <= Mask
    decreases n
  {
    if n == 0 then crc
    else FeedBits(Step(crc, LowBit(byte)), byte / 2, n - 1)
  }

  /** Feeds a whole message, byte after byte, starting from register `crc`. */
  function CrcFrom(crc: bv16, msg: seq<Byte>): (r: bv16)
    ensures |msg| == 0 ==> r == crc
    ensures crc <= Mask ==> r <= Mask
    decreases |msg|
  {
    if |msg| == 0 then crc
    else CrcFrom(FeedBits(crc, msg[0], BitsPerByte), msg[1..])
  }

  /** The checksum of a message: the register after feeding every byte into
      an all-zero register.  The empty message has checksum 0. */
  function Crc(msg: seq<Byte>): (r: nat)
    ensures r < 0x8000
    ensures |msg| == 0 ==> r == 0
  {
    CrcFrom(0, msg) as nat
  }

  /** The nested loop that computes the checksum: the outer loop walks the
      message, the inner loop shifts seven bits of the current byte, each
      shift being one `Step`. */
  method GetCrc15(msg: seq<Byte>) returns (crc: nat)
    ensures crc == Crc(msg)
  {
    var reg: bv16 := 0;
    var i := 0;
    while i < |msg|
      invariant 0 <= i <= |msg|
      invariant CrcFrom(reg, msg[i..]) == CrcFrom(0, msg)
    {
      var byte: nat := msg[i];
      ghost var start := reg;
      var j := 0;
      while j < BitsPerByte
        invariant 0 <= j <= BitsPerByte
        invariant FeedBits(reg, byte, BitsPerByte - j) == FeedBits(start, msg[i], BitsPerByte)
      {
        FeedOneBit(reg, byte, BitsPerByte - j);
        reg := Step(reg, LowBit(byte));
        byte := byte / 2;
        j := j + 1;
      }
      assert msg[i..][1..] == msg[i + 1..];
      i := i + 1;
    }
    crc := reg as nat;
  }

  /** Feeding `n` bits is one step with the lowest bit, then `n - 1` bits
      of the rest of the byte. */
  lemma FeedOneBit(crc: bv16, byte: nat, n: nat)
    requires n > 0
    ensures FeedBits(crc, byte, n) == FeedBits(Step(crc, LowBit(byte)), byte / 2, n - 1)
  {
  }

  function Pow2(k: nat): (r: nat)
    ensures r >= 1
  {
    if k == 0 then 1 else 2 * Pow2(k - 1)
  }

  /** Adding any multiple of 2^n to a byte does not change what feeding its
      low `n` bits does. */
  lemma {:induction false} FeedBitsIgnoresHighBits(crc: bv16, byte: nat, m: nat, n: nat)
    ensures FeedBits(crc, byte + m * Pow2(n), n) == FeedBits(crc, byte, n)
    decreases n
  {
    if n > 0 {
      var q := m * Pow2(n - 1);
      assert m * Pow2(n) == 2 * q;
      assert (byte + 2 * q) % 2 == byte % 2;
      assert (byte + 2 * q) / 2 == byte / 2 + q;
      FeedBitsIgnoresHighBits(Step(crc, LowBit(byte)), byte / 2, m, n - 1);
    }
  }

  /** A byte with its bit 7 inverted. */
  function FlipBit7(b: Byte): (r: Byte)
    ensures r % 128 == b % 128 && (r < 128 <==> b >= 128)
  {
    if b < 128 then b + 128 else b - 128
  }

  lemma Pow2Bits()
    ensures Pow2(BitsPerByte) == 128
  {
    assert Pow2(1) == 2 && Pow2(2) == 4 && Pow2(3) == 8;
    assert Pow2(4) == 16 && Pow2(5) == 32 && Pow2(6) == 64;
  }

  lemma FeedByteIgnoresBit7(crc: bv16, b: Byte)
    ensures FeedBits(crc, FlipBit7(b), BitsPerByte) == FeedBits(crc, b, BitsPerByte)
  {
    Pow2Bits();
    if b < 128 {
      assert FlipBit7(b) == b + 1 * Pow2(BitsPerByte);
      FeedBitsIgnoresHighBits(crc, b, 1, BitsPerByte);
    } else {
      assert b == FlipBit7(b) + 1 * Pow2(BitsPerByte);
      FeedBitsIgnoresHighBits(crc, FlipBit7(b), 1, BitsPerByte);
    }
  }

  lemma {:induction false} CrcFromIgnoresBit7(crc: bv16, msg: seq<Byte>, i: nat)
    requires i < |msg|
    ensures CrcFrom(crc, msg[i := FlipBit7(msg[i])]) == CrcFrom(crc, msg)
    decreases i
  {
    var flipped := msg[i := FlipBit7(msg[i])];
    if i == 0 {
      FeedByteIgnoresBit7(crc, msg[0]);
      assert flipped[1..] == msg[1..];
    } else {
      assert flipped[0] == msg[0];
      assert flipped[1..] == msg[1..][i - 1 := FlipBit7(msg[i])];
      CrcFromIgnoresBit7(FeedBits(crc, msg[0], BitsPerByte), msg[1..], i - 1);
    }
  }

  /** Only the low seven bits of each byte are read: inverting bit 7 of any
      byte of the message leaves the checksum unchanged. */
  lemma CrcIgnoresBit7(msg: seq<Byte>, i: nat)
    requires i < |msg|
    ensures Crc(msg[i := FlipBit7(msg[i])]) == Crc(msg)
  {
    CrcFromIgnoresBit7(0, msg, i);
  }
}
