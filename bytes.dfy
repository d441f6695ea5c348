/**
 * Fixed-width unsigned integers, big-endian byte encodings and bit access:
 * the arithmetic the Seesaw driver performs with be16_to_cpu, be32_to_cpu,
 * put_unaligned_be32, `~` on a u32 and truncation into a u16 field.
 */
module Bytes {

  type Byte = b: int | 0 <= b < 0x100
  type U16 = v: int | 0 <= v < 0x1_0000
  type U32 = v: int | 0 <= v < 0x1_0000_0000

  /** 2^n */
  function Pow2(n: nat): (p: nat)
    ensures p >= 1
  {
    if n == 0 then 1 else 2 * Pow2(n - 1)
  }

  /** Bit i of v (0 or 1): what `(v >> i) & 1` yields. */
  function Bit(v: nat, i: nat): nat
  {
    if i == 0 then v % 2 else Bit(v / 2, i - 1)
  }

  lemma {:induction false} BitOfZero(i: nat)
    ensures Bit(0, i) == 0
  {
    if i > 0 {
      BitOfZero(i - 1);
    }
  }

  /** BIT(k) has bit k set and no other. */
  lemma {:induction false} BitOfPow2(k: nat, i: nat)
    ensures Bit(Pow2(k), i) == if i == k then 1 else 0
  {
    if i == 0 {
    } else if k == 0 {
      BitOfZero(i - 1);
    } else {
      BitOfPow2(k - 1, i - 1);
    }
  }

  /** A C assignment of an int into a u16 field keeps the value modulo 2^16. */
  function TruncateU16(v: int): (r: U16)
    ensures 0 <= v < 0x1_0000 ==> r == v
    ensures exists q: int {:trigger q * 0x1_0000} :: v == q * 0x1_0000 + r
  {
    var r := v % 0x1_0000;
    assert v == (v / 0x1_0000) * 0x1_0000 + r;
    r
  }

  /** be16_to_cpu over the two bytes as they arrive on the wire. */
  function BE16(b: seq<Byte>): U16
    requires |b| == 2
  {
    b[0] as int * 0x100 + b[1]
  }

  /** The two bytes of v, most significant first. */
  function ToBE16(v: U16): (b: seq<Byte>)
    ensures |b| == 2
  {
    [v / 0x100, v % 0x100]
  }

  /** be32_to_cpu over the four bytes as they arrive on the wire. */
  function BE32(b: seq<Byte>): U32
    requires |b| == 4
  {
    b[0] as int * 0x100_0000 + b[1] as int * 0x1_0000 + b[2] as int * 0x100 + b[3]
  }

  /** put_unaligned_be32: the four bytes of v, most significant first. */
  function ToBE32(v: U32): (b: seq<Byte>)
    ensures |b| == 4
  {
    [v / 0x100_0000, v / 0x1_0000 % 0x100, v / 0x100 % 0x100, v % 0x100]
  }

  lemma BE16RoundTrip(v: U16)
    ensures BE16(ToBE16(v)) == v
  {
  }

  lemma ToBE16RoundTrip(b: seq<Byte>)
    requires |b| == 2
    ensures ToBE16(BE16(b)) == b
  {
    var v := BE16(b);
    assert v / 0x100 == b[0];
    assert v % 0x100 == b[1];
  }

  /** Decoding the big-endian encoding of a u32 gives the value back. */
  lemma BE32RoundTrip(v: U32)
    ensures BE32(ToBE32(v)) == v
  {
    var hi := v / 0x1_0000;
    var lo := v % 0x1_0000;
    assert v == hi * 0x1_0000 + lo;
    assert v / 0x100_0000 == hi / 0x100;
    assert v / 0x1_0000 % 0x100 == hi % 0x100;
    assert v / 0x100 % 0x100 == lo / 0x100 by {
      assert v / 0x100 == hi * 0x100 + lo / 0x100;
    }
    assert v % 0x100 == lo % 0x100;
  }

  /** Division and remainder by a power-of-256 base, for a digit below the base. */
  lemma DivModBase(q: nat, r: nat, base: nat)
    requires base == 0x100 || base == 0x1_0000 || base == 0x100_0000
    requires r < base
    ensures (q * base + r) / base == q && (q * base + r) % base == r
  {
  }

  /** Four wire bytes are determined by the u32 they decode to. */
  lemma ToBE32RoundTrip(b: seq<Byte>)
    requires |b| == 4
    ensures ToBE32(BE32(b)) == b
  {
    var v := BE32(b);
    var hi := b[0] as int * 0x100 + b[1];
    var mid := hi * 0x100 + b[2];
    var lo := b[2] as int * 0x100 + b[3];
    assert v == mid * 0x100 + b[3];
    assert v == hi * 0x1_0000 + lo;
    assert v == b[0] as int * 0x100_0000 + (b[1] as int * 0x1_0000 + lo);
    DivModBase(b[0], b[1] as int * 0x1_0000 + lo, 0x100_0000);
    DivModBase(hi, lo, 0x1_0000);
    DivModBase(b[0], b[1], 0x100);
    DivModBase(mid, b[3], 0x100);
    DivModBase(hi, b[2], 0x100);
  }

  /** Complementing within n bits flips every bit below n. */
  lemma {:induction false} ComplementBit(n: nat, v: nat, i: nat)
    requires v < Pow2(n) && i < n
    ensures Bit(Pow2(n) - 1 - v, i) == 1 - Bit(v, i)
  {
    var c := Pow2(n) - 1 - v;
    assert Pow2(n) == 2 * Pow2(n - 1);
    assert c % 2 == 1 - v % 2;
    if i > 0 {
      assert c / 2 == Pow2(n - 1) - 1 - v / 2;
      ComplementBit(n - 1, v / 2, i - 1);
    }
  }

  lemma {:induction false} Pow2Add(a: nat, b: nat)
    ensures Pow2(a + b) == Pow2(a) * Pow2(b)
  {
    if a > 0 {
      Pow2Add(a - 1, b);
    }
  }

  lemma Pow2Of32()
    ensures Pow2(32) == 0x1_0000_0000
  {
    assert Pow2(1) == 2;
    Pow2Add(1, 1);
    Pow2Add(2, 2);
    Pow2Add(4, 4);
    Pow2Add(8, 8);
    Pow2Add(16, 16);
  }

  /** `~v` on a u32: every one of the 32 bits of v flipped. */
  function Not32(v: U32): (r: U32)
    ensures forall i :: 0 <= i < 32 ==> Bit(r, i) == 1 - Bit(v, i)
    ensures v + r == 0xFFFF_FFFF
  {
    var r := 0xFFFF_FFFF - v;
    assert forall i :: 0 <= i < 32 ==> Bit(r, i) == 1 - Bit(v, i) by {
      Pow2Of32();
      forall i | 0 <= i < 32
        ensures Bit(r, i) == 1 - Bit(v, i)
      {
        ComplementBit(32, v, i);
      }
    }
    r
  }

  /** `~` is its own inverse. */
  lemma Not32Involutive(v: U32)
    ensures Not32(Not32(v)) == v
  {
  }
}
