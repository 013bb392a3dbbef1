/** The 16-bit scrambling LFSR of the PCI Express physical layer, polynomial
    x^16 + x^5 + x^4 + x^3 + 1 (section 4.2.3 of the PCI Express Base
    Specification 1.1): the gateware's `next1`/`next2` XOR equations, and the
    bit-serial Galois register they are proved to compute. */
module Lfsr {
  import opened Codes

  /** `next1`: the state one byte (eight bit times) after `v`, bit by bit
      as the hardware writes it. */
  function Next1(v: bv16): bv16
  {
    ((v >> 8) & 1)
    | (((v >> 9) & 1) << 1)
    | (((v >> 10) & 1) << 2)
    | ((((v >> 11) ^ (v >> 8)) & 1) << 3)
    | ((((v >> 12) ^ (v >> 9) ^ (v >> 8)) & 1) << 4)
    | ((((v >> 13) ^ (v >> 10) ^ (v >> 9) ^ (v >> 8)) & 1) << 5)
    | ((((v >> 14) ^ (v >> 11) ^ (v >> 10) ^ (v >> 9)) & 1) << 6)
    | ((((v >> 15) ^ (v >> 12) ^ (v >> 11) ^ (v >> 10)) & 1) << 7)
    | (((v ^ (v >> 13) ^ (v >> 12) ^ (v >> 11)) & 1) << 8)
    | ((((v >> 1) ^ (v >> 14) ^ (v >> 13) ^ (v >> 12)) & 1) << 9)
    | ((((v >> 2) ^ (v >> 15) ^ (v >> 14) ^ (v >> 13)) & 1) << 10)
    | ((((v >> 3) ^ (v >> 15) ^ (v >> 14)) & 1) << 11)
    | ((((v >> 4) ^ (v >> 15)) & 1) << 12)
    | (((v >> 5) & 1) << 13)
    | (((v >> 6) & 1) << 14)
    | (((v >> 7) & 1) << 15)
  }

  /** `next2`: the state two bytes after `v`, written as the hardware writes
      it, with the same equations over the bits of `next1`. */
  function Next2(v: bv16): bv16
  {
    var n := Next1(v);
    ((n >> 8) & 1)
    | (((n >> 9) & 1) << 1)
    | (((n >> 10) & 1) << 2)
    | ((((n >> 11) ^ (n >> 8)) & 1) << 3)
    | ((((n >> 12) ^ (n >> 9) ^ (n >> 8)) & 1) << 4)
    | ((((n >> 13) ^ (n >> 10) ^ (n >> 9) ^ (n >> 8)) & 1) << 5)
    | ((((n >> 14) ^ (n >> 11) ^ (n >> 10) ^ (n >> 9)) & 1) << 6)
    | ((((n >> 15) ^ (n >> 12) ^ (n >> 11) ^ (n >> 10)) & 1) << 7)
    | (((n ^ (n >> 13) ^ (n >> 12) ^ (n >> 11)) & 1) << 8)
    | ((((n >> 1) ^ (n >> 14) ^ (n >> 13) ^ (n >> 12)) & 1) << 9)
    | ((((n >> 2) ^ (n >> 15) ^ (n >> 14) ^ (n >> 13)) & 1) << 10)
    | ((((n >> 3) ^ (n >> 15) ^ (n >> 14)) & 1) << 11)
    | ((((n >> 4) ^ (n >> 15)) & 1) << 12)
    | (((n >> 5) & 1) << 13)
    | (((n >> 6) & 1) << 14)
    | (((n >> 7) & 1) << 15)
  }

  /** The feedback taps x^5, x^4, x^3 and 1 of the polynomial. */
  const TAPS: bv16 := 0x0039

  /** One bit time of the Galois LFSR: shift towards bit 15; the bit that
      leaves at the top is fed back into the tap positions (`0 - top bit`
      is all ones exactly when the top bit is set). */
  function Shift(s: bv16): bv16
  {
    (s << 1) ^ (TAPS & (0 - (s >> 15)))
  }

  /** `n` bit times of the Galois LFSR. */
  function ShiftN(s: bv16, n: nat): bv16
    decreases n
  {
    if n == 0 then s else ShiftN(Shift(s), n - 1)
  }

  /** ShiftN splits at any point: m + n bit times are m, then n. */
  lemma {:induction false} ShiftNAdd(s: bv16, m: nat, n: nat)
    ensures ShiftN(s, m + n) == ShiftN(ShiftN(s, m), n)
    decreases m
  {
    if m > 0 {
      ShiftNAdd(Shift(s), m - 1, n);
    }
  }

  /** The feedback of the top `k` bits (k <= 5) when they leave the register
      together: each departing bit is folded back into taps 0, 3, 4 and 5
      above its own position. */
  function Fold(h: bv16): bv16
  {
    h ^ (h << 3) ^ (h << 4) ^ (h << 5)
  }

  /** Two, four and eight bit times in closed form. */
  function Jump2(s: bv16): bv16 { (s << 2) ^ Fold(s >> 14) }
  function Jump4(s: bv16): bv16 { (s << 4) ^ Fold(s >> 12) }
  function Jump8(s: bv16): bv16 { (s << 8) ^ Fold(s >> 8) }

  lemma ShiftTwice(s: bv16)
    ensures Shift(Shift(s)) == Jump2(s)
  {
  }

  lemma Jump2Twice(s: bv16)
    ensures Jump2(Jump2(s)) == Jump4(s)
  {
  }

  lemma Jump4Twice(s: bv16)
    ensures Jump4(Jump4(s)) == Jump8(s)
  {
  }

  lemma TwoShifts(s: bv16)
    ensures ShiftN(s, 2) == Jump2(s)
  {
    ShiftTwice(s);
  }

  lemma FourShifts(s: bv16)
    ensures ShiftN(s, 4) == Jump4(s)
  {
    ShiftNAdd(s, 2, 2);
    TwoShifts(s);
    TwoShifts(ShiftN(s, 2));
    Jump2Twice(s);
  }

  lemma EightShifts(s: bv16)
    ensures ShiftN(s, 8) == Jump8(s)
  {
    ShiftNAdd(s, 4, 4);
    FourShifts(s);
    FourShifts(ShiftN(s, 4));
    Jump4Twice(s);
  }

  /** The `next1` equations are the eight-bit-time closed form. */
  lemma Next1IsJump8(v: bv16)
    ensures Next1(v) == Jump8(v)
  {
  }

  /** The hardware's `next1` equations are exactly eight bit times of the
      Galois LFSR for x^16 + x^5 + x^4 + x^3 + 1. */
  lemma Next1IsEightShifts(v: bv16)
    ensures Next1(v) == ShiftN(v, 8)
  {
    Next1IsJump8(v);
    EightShifts(v);
  }

  /** `next2` is `next1` applied to `next1`. */
  lemma Next2IsNext1Twice(v: bv16)
    ensures Next2(v) == Next1(Next1(v))
  {
  }

  lemma Next1TwiceIsSixteenShifts(v: bv16)
    ensures Next1(Next1(v)) == ShiftN(v, 16)
  {
    Next1IsEightShifts(v);
    Next1IsEightShifts(Next1(v));
    ShiftNAdd(v, 8, 8);
  }

  /** `next2` is sixteen bit times of the Galois LFSR. */
  lemma Next2IsSixteenShifts(v: bv16)
    ensures Next2(v) == ShiftN(v, 16)
  {
    Next2IsNext1Twice(v);
    Next1TwiceIsSixteenShifts(v);
  }

  /** The state after reset (0xFFFF) advanced one byte is the gateware's
      constant LFSR_VALUE_NEXT_AFTER_RESET. */
  lemma NextAfterReset()
    ensures Next1(0xFFFF) == 0xE817
  {
  }

  /** The 8-bit word with the bits of `b` in reverse order. */
  function Reverse8(b: bv8): (r: bv8)
  {
    ((b >> 7) & 1)
    | (((b >> 6) & 1) << 1)
    | (((b >> 5) & 1) << 2)
    | (((b >> 4) & 1) << 3)
    | (((b >> 3) & 1) << 4)
    | (((b >> 2) & 1) << 5)
    | (((b >> 1) & 1) << 6)
    | ((b & 1) << 7)
  }

  /** The keystream byte the descrambler XORs with a data byte when the LFSR
      holds `v`: bit i of the byte is bit 15 - i of the state. */
  function KeyByte(v: bv16): bv8
  {
    Reverse8(Upper(v))
  }

  /** The bit the Galois LFSR emits in the current bit time: its top bit. */
  predicate Top(s: bv16)
  {
    s & 0x8000 != 0
  }

  /** The first `n` bits the Galois LFSR emits serially from state `s`:
      the keystream of section 4.2.3, first bit first. */
  function KeyBits(s: bv16, n: nat): (r: seq<bool>)
    decreases n
  {
    if n == 0 then [] else [Top(s)] + KeyBits(Shift(s), n - 1)
  }

  /** The bits of a byte, least significant first: the order in which a
      byte is serialised and XORed with the keystream. */
  function Bits8(b: bv8): (r: seq<bool>)
    ensures |r| == 8
  {
    [b & 1 != 0, b & 2 != 0, b & 4 != 0, b & 8 != 0,
     b & 16 != 0, b & 32 != 0, b & 64 != 0, b & 128 != 0]
  }

  lemma {:induction false} KeyBitsLength(s: bv16, n: nat)
    ensures |KeyBits(s, n)| == n
    decreases n
  {
    if n > 0 {
      KeyBitsLength(Shift(s), n - 1);
    }
  }

  /** Bit `i` of the keystream is the top bit of the state after `i` bit times. */
  lemma {:induction false} KeyBitsAt(s: bv16, n: nat, i: nat)
    requires i < n
    ensures |KeyBits(s, n)| == n && KeyBits(s, n)[i] == Top(ShiftN(s, i))
    decreases n
  {
    KeyBitsLength(s, n);
    if i > 0 {
      KeyBitsAt(Shift(s), n - 1, i - 1);
    }
  }

  /** The keystream of m + n bit times is that of the first m followed by
      that of the next n, started from the state m bit times on. */
  lemma {:induction false} KeyBitsAdd(s: bv16, m: nat, n: nat)
    ensures KeyBits(s, m + n) == KeyBits(s, m) + KeyBits(ShiftN(s, m), n)
    decreases m
  {
    if m > 0 {
      KeyBitsAdd(Shift(s), m - 1, n);
      assert KeyBits(s, m + n) == [Top(s)] + KeyBits(Shift(s), m - 1 + n);
    }
  }

  /** The top bit after one to seven bit times is the next bit down. */
  lemma TopsWithinByte(v: bv16)
    ensures Top(Shift(v)) == (v & 0x4000 != 0)
    ensures Top(Jump2(v)) == (v & 0x2000 != 0)
    ensures Top(Shift(Jump2(v))) == (v & 0x1000 != 0)
    ensures Top(Jump4(v)) == (v & 0x0800 != 0)
    ensures Top(Shift(Jump4(v))) == (v & 0x0400 != 0)
    ensures Top(Jump2(Jump4(v))) == (v & 0x0200 != 0)
    ensures Top(Shift(Jump2(Jump4(v)))) == (v & 0x0100 != 0)
  {
  }

  lemma KeyByteBits(v: bv16)
    ensures Bits8(KeyByte(v)) == [v & 0x8000 != 0, v & 0x4000 != 0, v & 0x2000 != 0, v & 0x1000 != 0,
                                 v & 0x0800 != 0, v & 0x0400 != 0, v & 0x0200 != 0, v & 0x0100 != 0]
  {
  }

  /** The states one to seven bit times on, in closed form. */
  lemma ShiftsWithinByte(v: bv16)
    ensures ShiftN(v, 1) == Shift(v)
    ensures ShiftN(v, 2) == Jump2(v)
    ensures ShiftN(v, 3) == Shift(Jump2(v))
    ensures ShiftN(v, 4) == Jump4(v)
    ensures ShiftN(v, 5) == Shift(Jump4(v))
    ensures ShiftN(v, 6) == Jump2(Jump4(v))
    ensures ShiftN(v, 7) == Shift(Jump2(Jump4(v)))
  {
    TwoShifts(v);
    FourShifts(v);
    ShiftNAdd(v, 2, 1);
    ShiftNAdd(v, 4, 1);
    ShiftNAdd(v, 4, 2);
    ShiftNAdd(v, 4, 3);
    TwoShifts(Jump4(v));
    ShiftNAdd(Jump4(v), 2, 1);
  }

  /** The keystream byte read from the state in parallel equals the eight
      bits the Galois LFSR emits serially over that byte, bit 0 first. */
  lemma KeyByteIsSerial(v: bv16)
    ensures Bits8(KeyByte(v)) == KeyBits(v, 8)
  {
    ShiftsWithinByte(v);
    TopsWithinByte(v);
    KeyByteBits(v);
    KeyBitsLength(v, 8);
    forall i | 0 <= i < 8
      ensures KeyBits(v, 8)[i] == Top(ShiftN(v, i))
    {
      KeyBitsAt(v, 8, i);
    }
  }

  /** The keystream of `n` bytes from state `v`, one byte per `next1` step:
      what the descrambler XORs with `n` consecutive data bytes. */
  function KeyBytes(v: bv16, n: nat): (r: seq<bv8>)
    ensures |r| == n
    decreases n
  {
    if n == 0 then [] else [KeyByte(v)] + KeyBytes(Next1(v), n - 1)
  }

  /** The bits of a byte sequence in transmission order: each byte least
      significant bit first. */
  function ByteBits(bs: seq<bv8>): (r: seq<bool>)
    ensures |r| == 8 * |bs|
  {
    if |bs| == 0 then [] else Bits8(bs[0]) + ByteBits(bs[1..])
  }

  /** Byte-parallel descrambling is bit-serial descrambling: the keystream
      bytes taken a byte at a time through `next1` are, bit for bit, the
      serial output of the Galois LFSR over 8n bit times. */
  lemma {:induction false} KeyBytesAreSerial(v: bv16, n: nat)
    ensures ByteBits(KeyBytes(v, n)) == KeyBits(v, 8 * n)
    decreases n
  {
    if n > 0 {
      var rest := KeyBytes(Next1(v), n - 1);
      assert KeyBytes(v, n) == [KeyByte(v)] + rest;
      assert ([KeyByte(v)] + rest)[1..] == rest;
      KeyBytesAreSerial(Next1(v), n - 1);
      KeyByteIsSerial(v);
      Next1IsEightShifts(v);
      KeyBitsAdd(v, 8, 8 * (n - 1));
    }
  }
}
