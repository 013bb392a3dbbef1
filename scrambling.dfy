/** The four-byte scrambler of scrambling.py: the `ScramblerUnit` keystream
    generator, the `Scrambler` that XORs it into the non-K lanes of a 32-bit
    beat, and the self-synchronising `Descrambler` that resets the unit on
    COM. Lane i of a beat is bits 8i..8i+7 (lane 0 the first symbol). */
module Scrambling {
  import opened Codes
  import opened Lfsr

  /** `new`: the unit state 32 bit times after `cur`, as the gateware's XOR
      equations. */
  function UnitNew(cur: bv16): bv16
  {
    ((cur ^ (cur >> 6) ^ (cur >> 8) ^ (cur >> 10)) & 1)
    | ((((cur >> 1) ^ (cur >> 7) ^ (cur >> 9) ^ (cur >> 11)) & 1) << 1)
    | ((((cur >> 2) ^ (cur >> 8) ^ (cur >> 10) ^ (cur >> 12)) & 1) << 2)
    | ((((cur >> 3) ^ (cur >> 6) ^ (cur >> 8) ^ (cur >> 9) ^ (cur >> 10) ^ (cur >> 11) ^ (cur >> 13)) & 1) << 3)
    | ((((cur >> 4) ^ (cur >> 6) ^ (cur >> 7) ^ (cur >> 8) ^ (cur >> 9) ^ (cur >> 11) ^ (cur >> 12) ^ (cur >> 14)) & 1) << 4)
    | ((((cur >> 5) ^ (cur >> 6) ^ (cur >> 7) ^ (cur >> 9) ^ (cur >> 12) ^ (cur >> 13) ^ (cur >> 15)) & 1) << 5)
    | (((cur ^ (cur >> 6) ^ (cur >> 7) ^ (cur >> 8) ^ (cur >> 10) ^ (cur >> 13) ^ (cur >> 14)) & 1) << 6)
    | ((((cur >> 1) ^ (cur >> 7) ^ (cur >> 8) ^ (cur >> 9) ^ (cur >> 11) ^ (cur >> 14) ^ (cur >> 15)) & 1) << 7)
    | (((cur ^ (cur >> 2) ^ (cur >> 8) ^ (cur >> 9) ^ (cur >> 10) ^ (cur >> 12) ^ (cur >> 15)) & 1) << 8)
    | ((((cur >> 1) ^ (cur >> 3) ^ (cur >> 9) ^ (cur >> 10) ^ (cur >> 11) ^ (cur >> 13)) & 1) << 9)
    | (((cur ^ (cur >> 2) ^ (cur >> 4) ^ (cur >> 10) ^ (cur >> 11) ^ (cur >> 12) ^ (cur >> 14)) & 1) << 10)
    | ((((cur >> 1) ^ (cur >> 3) ^ (cur >> 5) ^ (cur >> 11) ^ (cur >> 12) ^ (cur >> 13) ^ (cur >> 15)) & 1) << 11)
    | ((((cur >> 2) ^ (cur >> 4) ^ (cur >> 6) ^ (cur >> 12) ^ (cur >> 13) ^ (cur >> 14)) & 1) << 12)
    | ((((cur >> 3) ^ (cur >> 5) ^ (cur >> 7) ^ (cur >> 13) ^ (cur >> 14) ^ (cur >> 15)) & 1) << 13)
    | ((((cur >> 4) ^ (cur >> 6) ^ (cur >> 8) ^ (cur >> 14) ^ (cur >> 15)) & 1) << 14)
    | ((((cur >> 5) ^ (cur >> 7) ^ (cur >> 9) ^ (cur >> 15)) & 1) << 15)
  }

  /** `value`: the 32 keystream bits for one beat, as the gateware's XOR
      equations. */
  function UnitValue(cur: bv16): bv32
  {
    (((cur >> 15) & 1) as bv32)
    | ((((cur >> 14) & 1) as bv32) << 1)
    | ((((cur >> 13) & 1) as bv32) << 2)
    | ((((cur >> 12) & 1) as bv32) << 3)
    | ((((cur >> 11) & 1) as bv32) << 4)
    | ((((cur >> 10) & 1) as bv32) << 5)
    | ((((cur >> 9) & 1) as bv32) << 6)
    | ((((cur >> 8) & 1) as bv32) << 7)
    | ((((cur >> 7) & 1) as bv32) << 8)
    | ((((cur >> 6) & 1) as bv32) << 9)
    | ((((cur >> 5) & 1) as bv32) << 10)
    | (((((cur >> 4) ^ (cur >> 15)) & 1) as bv32) << 11)
    | (((((cur >> 3) ^ (cur >> 14) ^ (cur >> 15)) & 1) as bv32) << 12)
    | (((((cur >> 2) ^ (cur >> 13) ^ (cur >> 14) ^ (cur >> 15)) & 1) as bv32) << 13)
    | (((((cur >> 1) ^ (cur >> 12) ^ (cur >> 13) ^ (cur >> 14)) & 1) as bv32) << 14)
    | ((((cur ^ (cur >> 11) ^ (cur >> 12) ^ (cur >> 13)) & 1) as bv32) << 15)
    | (((((cur >> 10) ^ (cur >> 11) ^ (cur >> 12) ^ (cur >> 15)) & 1) as bv32) << 16)
    | (((((cur >> 9) ^ (cur >> 10) ^ (cur >> 11) ^ (cur >> 14)) & 1) as bv32) << 17)
    | (((((cur >> 8) ^ (cur >> 9) ^ (cur >> 10) ^ (cur >> 13)) & 1) as bv32) << 18)
    | (((((cur >> 7) ^ (cur >> 8) ^ (cur >> 9) ^ (cur >> 12)) & 1) as bv32) << 19)
    | (((((cur >> 6) ^ (cur >> 7) ^ (cur >> 8) ^ (cur >> 11)) & 1) as bv32) << 20)
    | (((((cur >> 5) ^ (cur >> 6) ^ (cur >> 7) ^ (cur >> 10)) & 1) as bv32) << 21)
    | (((((cur >> 4) ^ (cur >> 5) ^ (cur >> 6) ^ (cur >> 9) ^ (cur >> 15)) & 1) as bv32) << 22)
    | (((((cur >> 3) ^ (cur >> 4) ^ (cur >> 5) ^ (cur >> 8) ^ (cur >> 14)) & 1) as bv32) << 23)
    | (((((cur >> 2) ^ (cur >> 3) ^ (cur >> 4) ^ (cur >> 7) ^ (cur >> 13) ^ (cur >> 15)) & 1) as bv32) << 24)
    | (((((cur >> 1) ^ (cur >> 2) ^ (cur >> 3) ^ (cur >> 6) ^ (cur >> 12) ^ (cur >> 14)) & 1) as bv32) << 25)
    | ((((cur ^ (cur >> 1) ^ (cur >> 2) ^ (cur >> 5) ^ (cur >> 11) ^ (cur >> 13) ^ (cur >> 15)) & 1) as bv32) << 26)
    | ((((cur ^ (cur >> 1) ^ (cur >> 4) ^ (cur >> 10) ^ (cur >> 12) ^ (cur >> 14)) & 1) as bv32) << 27)
    | ((((cur ^ (cur >> 3) ^ (cur >> 9) ^ (cur >> 11) ^ (cur >> 13)) & 1) as bv32) << 28)
    | (((((cur >> 2) ^ (cur >> 8) ^ (cur >> 10) ^ (cur >> 12)) & 1) as bv32) << 29)
    | (((((cur >> 1) ^ (cur >> 7) ^ (cur >> 9) ^ (cur >> 11)) & 1) as bv32) << 30)
    | ((((cur ^ (cur >> 6) ^ (cur >> 8) ^ (cur >> 10)) & 1) as bv32) << 31)
  }

  /** Lane i (bits 8i..8i+7) of a 32-bit beat. */
  function Lane(w: bv32, i: nat): bv8
    requires i < 4
  {
    if i == 0 then (w & 0xFF) as bv8
    else if i == 1 then ((w >> 8) & 0xFF) as bv8
    else if i == 2 then ((w >> 16) & 0xFF) as bv8
    else ((w >> 24) & 0xFF) as bv8
  }

  /** The four lanes of a beat, lane 0 first. */
  function Lanes(w: bv32): (r: seq<bv8>)
    ensures |r| == 4
  {
    [Lane(w, 0), Lane(w, 1), Lane(w, 2), Lane(w, 3)]
  }

  /* The next six lemmas follow the state byte by byte, each byte step
     written out as (b << 8) ^ h ^ (h << 3) ^ (h << 4) ^ (h << 5) with
     h = b >> 8 (the closed form of `next1`). */

  lemma FirstByte(cur: bv16)
    ensures var b1 := (cur << 8) ^ (cur >> 8) ^ ((cur >> 8) << 3) ^ ((cur >> 8) << 4) ^ ((cur >> 8) << 5);
            Next1(cur) == b1
  {
  }

  lemma SecondByte(cur: bv16)
    ensures var b1 := (cur << 8) ^ (cur >> 8) ^ ((cur >> 8) << 3) ^ ((cur >> 8) << 4) ^ ((cur >> 8) << 5);
            var b2 := (b1 << 8) ^ (b1 >> 8) ^ ((b1 >> 8) << 3) ^ ((b1 >> 8) << 4) ^ ((b1 >> 8) << 5);
            Next1(b1) == b2
  {
  }

  lemma ThirdByte(cur: bv16)
    ensures var b1 := (cur << 8) ^ (cur >> 8) ^ ((cur >> 8) << 3) ^ ((cur >> 8) << 4) ^ ((cur >> 8) << 5);
            var b2 := (b1 << 8) ^ (b1 >> 8) ^ ((b1 >> 8) << 3) ^ ((b1 >> 8) << 4) ^ ((b1 >> 8) << 5);
            var b3 := (b2 << 8) ^ (b2 >> 8) ^ ((b2 >> 8) << 3) ^ ((b2 >> 8) << 4) ^ ((b2 >> 8) << 5);
            Next1(b2) == b3
  {
  }

  lemma FourthByte(cur: bv16)
    ensures var b1 := (cur << 8) ^ (cur >> 8) ^ ((cur >> 8) << 3) ^ ((cur >> 8) << 4) ^ ((cur >> 8) << 5);
            var b2 := (b1 << 8) ^ (b1 >> 8) ^ ((b1 >> 8) << 3) ^ ((b1 >> 8) << 4) ^ ((b1 >> 8) << 5);
            var b3 := (b2 << 8) ^ (b2 >> 8) ^ ((b2 >> 8) << 3) ^ ((b2 >> 8) << 4) ^ ((b2 >> 8) << 5);
            var b4 := (b3 << 8) ^ (b3 >> 8) ^ ((b3 >> 8) << 3) ^ ((b3 >> 8) << 4) ^ ((b3 >> 8) << 5);
            Next1(b3) == b4
  {
  }

  lemma NewAfterFourBytes(cur: bv16)
    ensures var b1 := (cur << 8) ^ (cur >> 8) ^ ((cur >> 8) << 3) ^ ((cur >> 8) << 4) ^ ((cur >> 8) << 5);
            var b2 := (b1 << 8) ^ (b1 >> 8) ^ ((b1 >> 8) << 3) ^ ((b1 >> 8) << 4) ^ ((b1 >> 8) << 5);
            var b3 := (b2 << 8) ^ (b2 >> 8) ^ ((b2 >> 8) << 3) ^ ((b2 >> 8) << 4) ^ ((b2 >> 8) << 5);
            var b4 := (b3 << 8) ^ (b3 >> 8) ^ ((b3 >> 8) << 3) ^ ((b3 >> 8) << 4) ^ ((b3 >> 8) << 5);
            UnitNew(cur) == b4
  {
  }

  /** The unit's next state is four `next1` steps of the two-byte
      descrambler's LFSR: 32 bit times of x^16 + x^5 + x^4 + x^3 + 1. */
  lemma UnitNewIsFourBytes(cur: bv16)
    ensures UnitNew(cur) == Next1(Next1(Next1(Next1(cur))))
  {
    FirstByte(cur);
    SecondByte(cur);
    ThirdByte(cur);
    FourthByte(cur);
    NewAfterFourBytes(cur);
  }

  /* The value lanes one bit at a time: bit j of lane k is bit 15 - j of
     the state k byte steps on. */

  lemma ValueLane0Bit0(cur: bv16)
    ensures (UnitValue(cur) & 1) as bv16 == (cur >> 15) & 1
  {
  }

  lemma ValueLane0Bit1(cur: bv16)
    ensures ((UnitValue(cur) >> 1) & 1) as bv16 == (cur >> 14) & 1
  {
  }

  lemma ValueLane0Bit2(cur: bv16)
    ensures ((UnitValue(cur) >> 2) & 1) as bv16 == (cur >> 13) & 1
  {
  }

  lemma ValueLane0Bit3(cur: bv16)
    ensures ((UnitValue(cur) >> 3) & 1) as bv16 == (cur >> 12) & 1
  {
  }

  lemma ValueLane0Bit4(cur: bv16)
    ensures ((UnitValue(cur) >> 4) & 1) as bv16 == (cur >> 11) & 1
  {
  }

  lemma ValueLane0Bit5(cur: bv16)
    ensures ((UnitValue(cur) >> 5) & 1) as bv16 == (cur >> 10) & 1
  {
  }

  lemma ValueLane0Bit6(cur: bv16)
    ensures ((UnitValue(cur) >> 6) & 1) as bv16 == (cur >> 9) & 1
  {
  }

  lemma ValueLane0Bit7(cur: bv16)
    ensures ((UnitValue(cur) >> 7) & 1) as bv16 == (cur >> 8) & 1
  {
  }

  lemma ValueLane1Bit0(cur: bv16)
    ensures var b1 := (cur << 8) ^ (cur >> 8) ^ ((cur >> 8) << 3) ^ ((cur >> 8) << 4) ^ ((cur >> 8) << 5);
            ((UnitValue(cur) >> 8) & 1) as bv16 == (b1 >> 15) & 1
  {
  }

  lemma ValueLane1Bit1(cur: bv16)
    ensures var b1 := (cur << 8) ^ (cur >> 8) ^ ((cur >> 8) << 3) ^ ((cur >> 8) << 4) ^ ((cur >> 8) << 5);
            (((UnitValue(cur) >> 8) >> 1) & 1) as bv16 == (b1 >> 14) & 1
  {
  }

  lemma ValueLane1Bit2(cur: bv16)
    ensures var b1 := (cur << 8) ^ (cur >> 8) ^ ((cur >> 8) << 3) ^ ((cur >> 8) << 4) ^ ((cur >> 8) << 5);
            (((UnitValue(cur) >> 8) >> 2) & 1) as bv16 == (b1 >> 13) & 1
  {
  }

  lemma ValueLane1Bit3(cur: bv16)
    ensures var b1 := (cur << 8) ^ (cur >> 8) ^ ((cur >> 8) << 3) ^ ((cur >> 8) << 4) ^ ((cur >> 8) << 5);
            (((UnitValue(cur) >> 8) >> 3) & 1) as bv16 == (b1 >> 12) & 1
  {
  }

  lemma ValueLane1Bit4(cur: bv16)
    ensures var b1 := (cur << 8) ^ (cur >> 8) ^ ((cur >> 8) << 3) ^ ((cur >> 8) << 4) ^ ((cur >> 8) << 5);
            (((UnitValue(cur) >> 8) >> 4) & 1) as bv16 == (b1 >> 11) & 1
  {
  }

  lemma ValueLane1Bit5(cur: bv16)
    ensures var b1 := (cur << 8) ^ (cur >> 8) ^ ((cur >> 8) << 3) ^ ((cur >> 8) << 4) ^ ((cur >> 8) << 5);
            (((UnitValue(cur) >> 8) >> 5) & 1) as bv16 == (b1 >> 10) & 1
  {
  }

  lemma ValueLane1Bit6(cur: bv16)
    ensures var b1 := (cur << 8) ^ (cur >> 8) ^ ((cur >> 8) << 3) ^ ((cur >> 8) << 4) ^ ((cur >> 8) << 5);
            (((UnitValue(cur) >> 8) >> 6) & 1) as bv16 == (b1 >> 9) & 1
  {
  }

  lemma ValueLane1Bit7(cur: bv16)
    ensures var b1 := (cur << 8) ^ (cur >> 8) ^ ((cur >> 8) << 3) ^ ((cur >> 8) << 4) ^ ((cur >> 8) << 5);
            (((UnitValue(cur) >> 8) >> 7) & 1) as bv16 == (b1 >> 8) & 1
  {
  }

  lemma ValueLane2Bit0(cur: bv16)
    ensures var b1 := (cur << 8) ^ (cur >> 8) ^ ((cur >> 8) << 3) ^ ((cur >> 8) << 4) ^ ((cur >> 8) << 5);
            var b2 := (b1 << 8) ^ (b1 >> 8) ^ ((b1 >> 8) << 3) ^ ((b1 >> 8) << 4) ^ ((b1 >> 8) << 5);
            ((UnitValue(cur) >> 16) & 1) as bv16 == (b2 >> 15) & 1
  {
  }

  lemma ValueLane2Bit1(cur: bv16)
    ensures var b1 := (cur << 8) ^ (cur >> 8) ^ ((cur >> 8) << 3) ^ ((cur >> 8) << 4) ^ ((cur >> 8) << 5);
            var b2 := (b1 << 8) ^ (b1 >> 8) ^ ((b1 >> 8) << 3) ^ ((b1 >> 8) << 4) ^ ((b1 >> 8) << 5);
            (((UnitValue(cur) >> 16) >> 1) & 1) as bv16 == (b2 >> 14) & 1
  {
  }

  lemma ValueLane2Bit2(cur: bv16)
    ensures var b1 := (cur << 8) ^ (cur >> 8) ^ ((cur >> 8) << 3) ^ ((cur >> 8) << 4) ^ ((cur >> 8) << 5);
            var b2 := (b1 << 8) ^ (b1 >> 8) ^ ((b1 >> 8) << 3) ^ ((b1 >> 8) << 4) ^ ((b1 >> 8) << 5);
            (((UnitValue(cur) >> 16) >> 2) & 1) as bv16 == (b2 >> 13) & 1
  {
  }

  lemma ValueLane2Bit3(cur: bv16)
    ensures var b1 := (cur << 8) ^ (cur >> 8) ^ ((cur >> 8) << 3) ^ ((cur >> 8) << 4) ^ ((cur >> 8) << 5);
            var b2 := (b1 << 8) ^ (b1 >> 8) ^ ((b1 >> 8) << 3) ^ ((b1 >> 8) << 4) ^ ((b1 >> 8) << 5);
            (((UnitValue(cur) >> 16) >> 3) & 1) as bv16 == (b2 >> 12) & 1
  {
  }

  lemma ValueLane2Bit4(cur: bv16)
    ensures var b1 := (cur << 8) ^ (cur >> 8) ^ ((cur >> 8) << 3) ^ ((cur >> 8) << 4) ^ ((cur >> 8) << 5);
            var b2 := (b1 << 8) ^ (b1 >> 8) ^ ((b1 >> 8) << 3) ^ ((b1 >> 8) << 4) ^ ((b1 >> 8) << 5);
            (((UnitValue(cur) >> 16) >> 4) & 1) as bv16 == (b2 >> 11) & 1
  {
  }

  lemma ValueLane2Bit5(cur: bv16)
    ensures var b1 := (cur << 8) ^ (cur >> 8) ^ ((cur >> 8) << 3) ^ ((cur >> 8) << 4) ^ ((cur >> 8) << 5);
            var b2 := (b1 << 8) ^ (b1 >> 8) ^ ((b1 >> 8) << 3) ^ ((b1 >> 8) << 4) ^ ((b1 >> 8) << 5);
            (((UnitValue(cur) >> 16) >> 5) & 1) as bv16 == (b2 >> 10) & 1
  {
  }

  lemma ValueLane2Bit6(cur: bv16)
    ensures var b1 := (cur << 8) ^ (cur >> 8) ^ ((cur >> 8) << 3) ^ ((cur >> 8) << 4) ^ ((cur >> 8) << 5);
            var b2 := (b1 << 8) ^ (b1 >> 8) ^ ((b1 >> 8) << 3) ^ ((b1 >> 8) << 4) ^ ((b1 >> 8) << 5);
            (((UnitValue(cur) >> 16) >> 6) & 1) as bv16 == (b2 >> 9) & 1
  {
  }

  lemma ValueLane2Bit7(cur: bv16)
    ensures var b1 := (cur << 8) ^ (cur >> 8) ^ ((cur >> 8) << 3) ^ ((cur >> 8) << 4) ^ ((cur >> 8) << 5);
            var b2 := (b1 << 8) ^ (b1 >> 8) ^ ((b1 >> 8) << 3) ^ ((b1 >> 8) << 4) ^ ((b1 >> 8) << 5);
            (((UnitValue(cur) >> 16) >> 7) & 1) as bv16 == (b2 >> 8) & 1
  {
  }

  lemma ValueLane3Bit0(cur: bv16)
    ensures var b1 := (cur << 8) ^ (cur >> 8) ^ ((cur >> 8) << 3) ^ ((cur >> 8) << 4) ^ ((cur >> 8) << 5);
            var b2 := (b1 << 8) ^ (b1 >> 8) ^ ((b1 >> 8) << 3) ^ ((b1 >> 8) << 4) ^ ((b1 >> 8) << 5);
            var b3 := (b2 << 8) ^ (b2 >> 8) ^ ((b2 >> 8) << 3) ^ ((b2 >> 8) << 4) ^ ((b2 >> 8) << 5);
            ((UnitValue(cur) >> 24) & 1) as bv16 == (b3 >> 15) & 1
  {
  }

  lemma ValueLane3Bit1(cur: bv16)
    ensures var b1 := (cur << 8) ^ (cur >> 8) ^ ((cur >> 8) << 3) ^ ((cur >> 8) << 4) ^ ((cur >> 8) << 5);
            var b2 := (b1 << 8) ^ (b1 >> 8) ^ ((b1 >> 8) << 3) ^ ((b1 >> 8) << 4) ^ ((b1 >> 8) << 5);
            var b3 := (b2 << 8) ^ (b2 >> 8) ^ ((b2 >> 8) << 3) ^ ((b2 >> 8) << 4) ^ ((b2 >> 8) << 5);
            (((UnitValue(cur) >> 24) >> 1) & 1) as bv16 == (b3 >> 14) & 1
  {
  }

  lemma ValueLane3Bit2(cur: bv16)
    ensures var b1 := (cur << 8) ^ (cur >> 8) ^ ((cur >> 8) << 3) ^ ((cur >> 8) << 4) ^ ((cur >> 8) << 5);
            var b2 := (b1 << 8) ^ (b1 >> 8) ^ ((b1 >> 8) << 3) ^ ((b1 >> 8) << 4) ^ ((b1 >> 8) << 5);
            var b3 := (b2 << 8) ^ (b2 >> 8) ^ ((b2 >> 8) << 3) ^ ((b2 >> 8) << 4) ^ ((b2 >> 8) << 5);
            (((UnitValue(cur) >> 24) >> 2) & 1) as bv16 == (b3 >> 13) & 1
  {
  }

  lemma ValueLane3Bit3(cur: bv16)
    ensures var b1 := (cur << 8) ^ (cur >> 8) ^ ((cur >> 8) << 3) ^ ((cur >> 8) << 4) ^ ((cur >> 8) << 5);
            var b2 := (b1 << 8) ^ (b1 >> 8) ^ ((b1 >> 8) << 3) ^ ((b1 >> 8) << 4) ^ ((b1 >> 8) << 5);
            var b3 := (b2 << 8) ^ (b2 >> 8) ^ ((b2 >> 8) << 3) ^ ((b2 >> 8) << 4) ^ ((b2 >> 8) << 5);
            (((UnitValue(cur) >> 24) >> 3) & 1) as bv16 == (b3 >> 12) & 1
  {
  }

  lemma ValueLane3Bit4(cur: bv16)
    ensures var b1 := (cur << 8) ^ (cur >> 8) ^ ((cur >> 8) << 3) ^ ((cur >> 8) << 4) ^ ((cur >> 8) << 5);
            var b2 := (b1 << 8) ^ (b1 >> 8) ^ ((b1 >> 8) << 3) ^ ((b1 >> 8) << 4) ^ ((b1 >> 8) << 5);
            var b3 := (b2 << 8) ^ (b2 >> 8) ^ ((b2 >> 8) << 3) ^ ((b2 >> 8) << 4) ^ ((b2 >> 8) << 5);
            (((UnitValue(cur) >> 24) >> 4) & 1) as bv16 == (b3 >> 11) & 1
  {
  }

  lemma ValueLane3Bit5(cur: bv16)
    ensures var b1 := (cur << 8) ^ (cur >> 8) ^ ((cur >> 8) << 3) ^ ((cur >> 8) << 4) ^ ((cur >> 8) << 5);
            var b2 := (b1 << 8) ^ (b1 >> 8) ^ ((b1 >> 8) << 3) ^ ((b1 >> 8) << 4) ^ ((b1 >> 8) << 5);
            var b3 := (b2 << 8) ^ (b2 >> 8) ^ ((b2 >> 8) << 3) ^ ((b2 >> 8) << 4) ^ ((b2 >> 8) << 5);
            (((UnitValue(cur) >> 24) >> 5) & 1) as bv16 == (b3 >> 10) & 1
  {
  }

  lemma ValueLane3Bit6(cur: bv16)
    ensures var b1 := (cur << 8) ^ (cur >> 8) ^ ((cur >> 8) << 3) ^ ((cur >> 8) << 4) ^ ((cur >> 8) << 5);
            var b2 := (b1 << 8) ^ (b1 >> 8) ^ ((b1 >> 8) << 3) ^ ((b1 >> 8) << 4) ^ ((b1 >> 8) << 5);
            var b3 := (b2 << 8) ^ (b2 >> 8) ^ ((b2 >> 8) << 3) ^ ((b2 >> 8) << 4) ^ ((b2 >> 8) << 5);
            (((UnitValue(cur) >> 24) >> 6) & 1) as bv16 == (b3 >> 9) & 1
  {
  }

  lemma ValueLane3Bit7(cur: bv16)
    ensures var b1 := (cur << 8) ^ (cur >> 8) ^ ((cur >> 8) << 3) ^ ((cur >> 8) << 4) ^ ((cur >> 8) << 5);
            var b2 := (b1 << 8) ^ (b1 >> 8) ^ ((b1 >> 8) << 3) ^ ((b1 >> 8) << 4) ^ ((b1 >> 8) << 5);
            var b3 := (b2 << 8) ^ (b2 >> 8) ^ ((b2 >> 8) << 3) ^ ((b2 >> 8) << 4) ^ ((b2 >> 8) << 5);
            (((UnitValue(cur) >> 24) >> 7) & 1) as bv16 == (b3 >> 8) & 1
  {
  }

  lemma Lane0FromBits(v: bv32, x: bv16)
    requires (v & 1) as bv16 == (x >> 15) & 1
    requires ((v >> 1) & 1) as bv16 == (x >> 14) & 1
    requires ((v >> 2) & 1) as bv16 == (x >> 13) & 1
    requires ((v >> 3) & 1) as bv16 == (x >> 12) & 1
    requires ((v >> 4) & 1) as bv16 == (x >> 11) & 1
    requires ((v >> 5) & 1) as bv16 == (x >> 10) & 1
    requires ((v >> 6) & 1) as bv16 == (x >> 9) & 1
    requires ((v >> 7) & 1) as bv16 == (x >> 8) & 1
    ensures Lane(v, 0) == KeyByte(x)
  {
  }

  lemma Lane1FromBits(v: bv32, x: bv16)
    requires ((v >> 8) & 1) as bv16 == (x >> 15) & 1
    requires (((v >> 8) >> 1) & 1) as bv16 == (x >> 14) & 1
    requires (((v >> 8) >> 2) & 1) as bv16 == (x >> 13) & 1
    requires (((v >> 8) >> 3) & 1) as bv16 == (x >> 12) & 1
    requires (((v >> 8) >> 4) & 1) as bv16 == (x >> 11) & 1
    requires (((v >> 8) >> 5) & 1) as bv16 == (x >> 10) & 1
    requires (((v >> 8) >> 6) & 1) as bv16 == (x >> 9) & 1
    requires (((v >> 8) >> 7) & 1) as bv16 == (x >> 8) & 1
    ensures Lane(v, 1) == KeyByte(x)
  {
  }

  lemma Lane2FromBits(v: bv32, x: bv16)
    requires ((v >> 16) & 1) as bv16 == (x >> 15) & 1
    requires (((v >> 16) >> 1) & 1) as bv16 == (x >> 14) & 1
    requires (((v >> 16) >> 2) & 1) as bv16 == (x >> 13) & 1
    requires (((v >> 16) >> 3) & 1) as bv16 == (x >> 12) & 1
    requires (((v >> 16) >> 4) & 1) as bv16 == (x >> 11) & 1
    requires (((v >> 16) >> 5) & 1) as bv16 == (x >> 10) & 1
    requires (((v >> 16) >> 6) & 1) as bv16 == (x >> 9) & 1
    requires (((v >> 16) >> 7) & 1) as bv16 == (x >> 8) & 1
    ensures Lane(v, 2) == KeyByte(x)
  {
  }

  lemma Lane3FromBits(v: bv32, x: bv16)
    requires ((v >> 24) & 1) as bv16 == (x >> 15) & 1
    requires (((v >> 24) >> 1) & 1) as bv16 == (x >> 14) & 1
    requires (((v >> 24) >> 2) & 1) as bv16 == (x >> 13) & 1
    requires (((v >> 24) >> 3) & 1) as bv16 == (x >> 12) & 1
    requires (((v >> 24) >> 4) & 1) as bv16 == (x >> 11) & 1
    requires (((v >> 24) >> 5) & 1) as bv16 == (x >> 10) & 1
    requires (((v >> 24) >> 6) & 1) as bv16 == (x >> 9) & 1
    requires (((v >> 24) >> 7) & 1) as bv16 == (x >> 8) & 1
    ensures Lane(v, 3) == KeyByte(x)
  {
  }

  lemma ValueLane0LowBits(cur: bv16)
    ensures (UnitValue(cur) & 1) as bv16 == (cur >> 15) & 1
    ensures ((UnitValue(cur) >> 1) & 1) as bv16 == (cur >> 14) & 1
    ensures ((UnitValue(cur) >> 2) & 1) as bv16 == (cur >> 13) & 1
    ensures ((UnitValue(cur) >> 3) & 1) as bv16 == (cur >> 12) & 1
  {
    ValueLane0Bit0(cur);
    ValueLane0Bit1(cur);
    ValueLane0Bit2(cur);
    ValueLane0Bit3(cur);
  }

  lemma ValueLane0HighBits(cur: bv16)
    ensures ((UnitValue(cur) >> 4) & 1) as bv16 == (cur >> 11) & 1
    ensures ((UnitValue(cur) >> 5) & 1) as bv16 == (cur >> 10) & 1
    ensures ((UnitValue(cur) >> 6) & 1) as bv16 == (cur >> 9) & 1
    ensures ((UnitValue(cur) >> 7) & 1) as bv16 == (cur >> 8) & 1
  {
    ValueLane0Bit4(cur);
    ValueLane0Bit5(cur);
    ValueLane0Bit6(cur);
    ValueLane0Bit7(cur);
  }

  lemma ValueLane0(cur: bv16)
    ensures Lane(UnitValue(cur), 0) == KeyByte(cur)
  {
    ValueLane0LowBits(cur);
    ValueLane0HighBits(cur);
    Lane0FromBits(UnitValue(cur), cur);
  }

  lemma ValueLane1LowBits(cur: bv16)
    ensures ((UnitValue(cur) >> 8) & 1) as bv16 == (Next1(cur) >> 15) & 1
    ensures (((UnitValue(cur) >> 8) >> 1) & 1) as bv16 == (Next1(cur) >> 14) & 1
    ensures (((UnitValue(cur) >> 8) >> 2) & 1) as bv16 == (Next1(cur) >> 13) & 1
    ensures (((UnitValue(cur) >> 8) >> 3) & 1) as bv16 == (Next1(cur) >> 12) & 1
  {
    FirstByte(cur);
    ValueLane1Bit0(cur);
    ValueLane1Bit1(cur);
    ValueLane1Bit2(cur);
    ValueLane1Bit3(cur);
  }

  lemma ValueLane1HighBits(cur: bv16)
    ensures (((UnitValue(cur) >> 8) >> 4) & 1) as bv16 == (Next1(cur) >> 11) & 1
    ensures (((UnitValue(cur) >> 8) >> 5) & 1) as bv16 == (Next1(cur) >> 10) & 1
    ensures (((UnitValue(cur) >> 8) >> 6) & 1) as bv16 == (Next1(cur) >> 9) & 1
    ensures (((UnitValue(cur) >> 8) >> 7) & 1) as bv16 == (Next1(cur) >> 8) & 1
  {
    FirstByte(cur);
    ValueLane1Bit4(cur);
    ValueLane1Bit5(cur);
    ValueLane1Bit6(cur);
    ValueLane1Bit7(cur);
  }

  lemma ValueLane1(cur: bv16)
    ensures Lane(UnitValue(cur), 1) == KeyByte(Next1(cur))
  {
    ValueLane1LowBits(cur);
    ValueLane1HighBits(cur);
    Lane1FromBits(UnitValue(cur), Next1(cur));
  }

  lemma ValueLane2LowBits(cur: bv16)
    ensures ((UnitValue(cur) >> 16) & 1) as bv16 == (Next1(Next1(cur)) >> 15) & 1
    ensures (((UnitValue(cur) >> 16) >> 1) & 1) as bv16 == (Next1(Next1(cur)) >> 14) & 1
    ensures (((UnitValue(cur) >> 16) >> 2) & 1) as bv16 == (Next1(Next1(cur)) >> 13) & 1
    ensures (((UnitValue(cur) >> 16) >> 3) & 1) as bv16 == (Next1(Next1(cur)) >> 12) & 1
  {
    FirstByte(cur);
    SecondByte(cur);
    ValueLane2Bit0(cur);
    ValueLane2Bit1(cur);
    ValueLane2Bit2(cur);
    ValueLane2Bit3(cur);
  }

  lemma ValueLane2HighBits(cur: bv16)
    ensures (((UnitValue(cur) >> 16) >> 4) & 1) as bv16 == (Next1(Next1(cur)) >> 11) & 1
    ensures (((UnitValue(cur) >> 16) >> 5) & 1) as bv16 == (Next1(Next1(cur)) >> 10) & 1
    ensures (((UnitValue(cur) >> 16) >> 6) & 1) as bv16 == (Next1(Next1(cur)) >> 9) & 1
    ensures (((UnitValue(cur) >> 16) >> 7) & 1) as bv16 == (Next1(Next1(cur)) >> 8) & 1
  {
    FirstByte(cur);
    SecondByte(cur);
    ValueLane2Bit4(cur);
    ValueLane2Bit5(cur);
    ValueLane2Bit6(cur);
    ValueLane2Bit7(cur);
  }

  lemma ValueLane2(cur: bv16)
    ensures Lane(UnitValue(cur), 2) == KeyByte(Next1(Next1(cur)))
  {
    ValueLane2LowBits(cur);
    ValueLane2HighBits(cur);
    Lane2FromBits(UnitValue(cur), Next1(Next1(cur)));
  }

  lemma ValueLane3LowBits(cur: bv16)
    ensures ((UnitValue(cur) >> 24) & 1) as bv16 == (Next1(Next1(Next1(cur))) >> 15) & 1
    ensures (((UnitValue(cur) >> 24) >> 1) & 1) as bv16 == (Next1(Next1(Next1(cur))) >> 14) & 1
    ensures (((UnitValue(cur) >> 24) >> 2) & 1) as bv16 == (Next1(Next1(Next1(cur))) >> 13) & 1
    ensures (((UnitValue(cur) >> 24) >> 3) & 1) as bv16 == (Next1(Next1(Next1(cur))) >> 12) & 1
  {
    FirstByte(cur);
    SecondByte(cur);
    ThirdByte(cur);
    ValueLane3Bit0(cur);
    ValueLane3Bit1(cur);
    ValueLane3Bit2(cur);
    ValueLane3Bit3(cur);
  }

  lemma ValueLane3HighBits(cur: bv16)
    ensures (((UnitValue(cur) >> 24) >> 4) & 1) as bv16 == (Next1(Next1(Next1(cur))) >> 11) & 1
    ensures (((UnitValue(cur) >> 24) >> 5) & 1) as bv16 == (Next1(Next1(Next1(cur))) >> 10) & 1
    ensures (((UnitValue(cur) >> 24) >> 6) & 1) as bv16 == (Next1(Next1(Next1(cur))) >> 9) & 1
    ensures (((UnitValue(cur) >> 24) >> 7) & 1) as bv16 == (Next1(Next1(Next1(cur))) >> 8) & 1
  {
    FirstByte(cur);
    SecondByte(cur);
    ThirdByte(cur);
    ValueLane3Bit4(cur);
    ValueLane3Bit5(cur);
    ValueLane3Bit6(cur);
    ValueLane3Bit7(cur);
  }

  lemma ValueLane3(cur: bv16)
    ensures Lane(UnitValue(cur), 3) == KeyByte(Next1(Next1(Next1(cur))))
  {
    ValueLane3LowBits(cur);
    ValueLane3HighBits(cur);
    Lane3FromBits(UnitValue(cur), Next1(Next1(Next1(cur))));
  }

  /** The unit's keystream lanes are the two-byte descrambler's keystream
      bytes for four consecutive byte steps from the same state. */
  lemma UnitValueIsKeyBytes(cur: bv16)
    ensures Lanes(UnitValue(cur)) == KeyBytes(cur, 4)
  {
    ValueLane0(cur);
    ValueLane1(cur);
    ValueLane2(cur);
    ValueLane3(cur);
    assert KeyBytes(cur, 4) == [KeyByte(cur), KeyByte(Next1(cur)), KeyByte(Next1(Next1(cur))),
                                KeyByte(Next1(Next1(Next1(cur))))];
  }

  /** Serially, one beat of keystream is the next 32 bits the LFSR emits,
      lane 0 first and each lane least significant bit first. */
  lemma UnitValueIsSerial(cur: bv16)
    ensures ByteBits(Lanes(UnitValue(cur))) == KeyBits(cur, 32)
  {
    UnitValueIsKeyBytes(cur);
    KeyBytesAreSerial(cur, 4);
  }

  /** One beat moves the unit 32 bit times along the LFSR. */
  lemma UnitNewIsThirtyTwoShifts(cur: bv16)
    ensures UnitNew(cur) == ShiftN(cur, 32)
  {
    UnitNewIsFourBytes(cur);
    Next1TwiceIsSixteenShifts(cur);
    Next1TwiceIsSixteenShifts(Next1(Next1(cur)));
    ShiftNAdd(cur, 16, 16);
  }

  /** The unit's next state as the clocked register sees it: reset has
      priority over the clock enable (`ResetInserter` outside
      `CEInserter`), an enabled beat moves on by `new`, otherwise the
      state holds. */
  function UnitNext(cur: bv16, ce: bool, rst: bool, resetValue: bv16): (r: bv16)
    ensures rst ==> r == resetValue
    ensures !rst && ce ==> r == ShiftN(cur, 32)
    ensures !rst && !ce ==> r == cur
  {
    UnitNewIsThirtyTwoShifts(cur);
    if rst then resetValue else if ce then UnitNew(cur) else cur
  }

  /** Bit `i` of a 4-bit ctrl field: the K flag of lane `i`. */
  predicate CtrlK(ctrl: bv4, i: nat)
    requires i < 4
  {
    if i == 0 then ctrl & 1 != 0
    else if i == 1 then ctrl & 2 != 0
    else if i == 2 then ctrl & 4 != 0
    else ctrl & 8 != 0
  }

  /** The word with lanes `b0` (lowest) to `b3`. */
  function Join4(b0: bv8, b1: bv8, b2: bv8, b3: bv8): (r: bv32)
    ensures Lane(r, 0) == b0 && Lane(r, 1) == b1 && Lane(r, 2) == b2 && Lane(r, 3) == b3
  {
    (b0 as bv32) | ((b1 as bv32) << 8) | ((b2 as bv32) << 16) | ((b3 as bv32) << 24)
  }

  /** Two words with the same four lanes are equal. */
  lemma LanesDetermineWord(a: bv32, b: bv32)
    requires Lane(a, 0) == Lane(b, 0) && Lane(a, 1) == Lane(b, 1)
    requires Lane(a, 2) == Lane(b, 2) && Lane(a, 3) == Lane(b, 3)
    ensures a == b
  {
  }

  /** One lane through the scrambler: a K symbol, or any symbol while the
      scrambler is disabled, passes unchanged; a data symbol is XORed with
      its keystream byte. */
  function ScrambleLane(d: bv8, k: bool, enable: bool, key: bv8): (r: bv8)
    ensures !enable || k ==> r == d
    ensures enable && !k ==> r ^ key == d
  {
    if !enable || k then d else d ^ key
  }

  /** The scrambler's combinational data path for one beat with keystream
      word `value`: each lane is scrambled on its own, with its own K flag
      and keystream byte. */
  function ScrambleWord(data: bv32, ctrl: bv4, enable: bool, value: bv32): (r: bv32)
    ensures Lane(r, 0) == ScrambleLane(Lane(data, 0), CtrlK(ctrl, 0), enable, Lane(value, 0))
    ensures Lane(r, 1) == ScrambleLane(Lane(data, 1), CtrlK(ctrl, 1), enable, Lane(value, 1))
    ensures Lane(r, 2) == ScrambleLane(Lane(data, 2), CtrlK(ctrl, 2), enable, Lane(value, 2))
    ensures Lane(r, 3) == ScrambleLane(Lane(data, 3), CtrlK(ctrl, 3), enable, Lane(value, 3))
  {
    Join4(ScrambleLane(Lane(data, 0), CtrlK(ctrl, 0), enable, Lane(value, 0)),
          ScrambleLane(Lane(data, 1), CtrlK(ctrl, 1), enable, Lane(value, 1)),
          ScrambleLane(Lane(data, 2), CtrlK(ctrl, 2), enable, Lane(value, 2)),
          ScrambleLane(Lane(data, 3), CtrlK(ctrl, 3), enable, Lane(value, 3)))
  }

  /** Scrambling a lane twice with the same key restores it. */
  lemma ScrambleLaneTwice(d: bv8, k: bool, enable: bool, key: bv8)
    ensures ScrambleLane(ScrambleLane(d, k, enable, key), k, enable, key) == d
  {
  }

  /** Scrambling twice with the same keystream and ctrl restores the data:
      the descrambler is the scrambler run again. */
  lemma ScrambleWordTwice(data: bv32, ctrl: bv4, enable: bool, value: bv32)
    ensures ScrambleWord(ScrambleWord(data, ctrl, enable, value), ctrl, enable, value) == data
  {
    var once := ScrambleWord(data, ctrl, enable, value);
    ScrambleLaneTwice(Lane(data, 0), CtrlK(ctrl, 0), enable, Lane(value, 0));
    ScrambleLaneTwice(Lane(data, 1), CtrlK(ctrl, 1), enable, Lane(value, 1));
    ScrambleLaneTwice(Lane(data, 2), CtrlK(ctrl, 2), enable, Lane(value, 2));
    ScrambleLaneTwice(Lane(data, 3), CtrlK(ctrl, 3), enable, Lane(value, 3));
    LanesDetermineWord(ScrambleWord(once, ctrl, enable, value), data);
  }

  /** One 32-bit beat of the four-lane stream: lane i of `data` with K flag
      bit i of `ctrl`. */
  datatype Beat = Beat(data: bv32, ctrl: bv4)

  /** The beat carries a COM symbol as a K symbol in some lane. */
  predicate HasCom(b: Beat)
  {
    (Lane(b.data, 0) == COM && CtrlK(b.ctrl, 0)) || (Lane(b.data, 1) == COM && CtrlK(b.ctrl, 1)) ||
    (Lane(b.data, 2) == COM && CtrlK(b.ctrl, 2)) || (Lane(b.data, 3) == COM && CtrlK(b.ctrl, 3))
  }

  /** The beat leaving the scrambler: data lanes scrambled, ctrl passed on. */
  function ScrambleBeat(b: Beat, enable: bool, value: bv32): (r: Beat)
    ensures r.ctrl == b.ctrl
    ensures HasCom(r) == HasCom(b)
  {
    Beat(ScrambleWord(b.data, b.ctrl, enable, value), b.ctrl)
  }

  /** What the scrambler emits for a stream of accepted beats starting with
      unit state `cur`: the unit moves on by one beat after each. Element i
      is the `out` of the i-th `Scrambler.Cycle` with `valid && ready` and no
      unit reset, whose state then moves to `UnitNext(cur, true, false, _)`,
      that is `UnitNew(cur)`. */
  function ScrambleStream(beats: seq<Beat>, cur: bv16, enable: bool): (r: seq<Beat>)
    ensures |r| == |beats|
    decreases |beats|
  {
    if beats == [] then []
    else [ScrambleBeat(beats[0], enable, UnitValue(cur))]
         + ScrambleStream(beats[1..], UnitNew(cur), enable)
  }

  /** The unit state of the descrambler after a stream of accepted beats:
      an accepted beat with a K-flagged COM resets it, any other moves it on. */
  function DescramblerState(beats: seq<Beat>, cur: bv16, resetValue: bv16): bv16
    decreases |beats|
  {
    if beats == [] then cur
    else DescramblerState(beats[1..], UnitNext(cur, true, HasCom(beats[0]), resetValue), resetValue)
  }

  /** What the descrambler emits for a stream of accepted beats. A COM beat
      is itself descrambled with the keystream in force before the reset.
      Element i is the `out` of the i-th `Descrambler.Cycle` with
      `valid && ready`, and the state passed on is that call's new
      `scrambler.unit.cur`. */
  function DescrambleStream(beats: seq<Beat>, cur: bv16, enable: bool, resetValue: bv16): (r: seq<Beat>)
    ensures |r| == |beats|
    decreases |beats|
  {
    if beats == [] then []
    else [ScrambleBeat(beats[0], enable, UnitValue(cur))]
         + DescrambleStream(beats[1..], UnitNext(cur, true, HasCom(beats[0]), resetValue), enable, resetValue)
  }

  /** The descrambler undoes itself: run twice from the same state it gives
      back its input, because a beat and its descrambled form carry the same
      COMs and so drive the unit alike. */
  lemma {:induction false} DescrambleTwice(beats: seq<Beat>, cur: bv16, enable: bool, resetValue: bv16)
    ensures DescrambleStream(DescrambleStream(beats, cur, enable, resetValue), cur, enable, resetValue) == beats
    decreases |beats|
  {
    if beats != [] {
      var once := DescrambleStream(beats, cur, enable, resetValue);
      var next := UnitNext(cur, true, HasCom(beats[0]), resetValue);
      assert once[1..] == DescrambleStream(beats[1..], next, enable, resetValue);
      ScrambleWordTwice(beats[0].data, beats[0].ctrl, enable, UnitValue(cur));
      DescrambleTwice(beats[1..], next, enable, resetValue);
      assert beats == [beats[0]] + beats[1..];
    }
  }

  /** Scrambling then descrambling from the same unit state gives the stream
      back, provided no beat carries a K-flagged COM (the scrambler never
      resets its unit, the descrambler resets on COM). */
  lemma {:induction false} DescrambleScrambled(beats: seq<Beat>, cur: bv16, enable: bool, resetValue: bv16)
    requires forall i :: 0 <= i < |beats| ==> !HasCom(beats[i])
    ensures DescrambleStream(ScrambleStream(beats, cur, enable), cur, enable, resetValue) == beats
    decreases |beats|
  {
    if beats != [] {
      ScrambleWordTwice(beats[0].data, beats[0].ctrl, enable, UnitValue(cur));
      DescrambleScrambled(beats[1..], UnitNew(cur), enable, resetValue);
      assert beats == [beats[0]] + beats[1..];
    }
  }

  /** Descrambling a concatenation: the second part starts from the state
      the first part leaves. */
  lemma {:induction false} DescrambleAppend(a: seq<Beat>, b: seq<Beat>, cur: bv16, enable: bool, resetValue: bv16)
    ensures DescrambleStream(a + b, cur, enable, resetValue)
         == DescrambleStream(a, cur, enable, resetValue) + DescrambleStream(b, DescramblerState(a, cur, resetValue), enable, resetValue)
    decreases |a|
  {
    if a == [] {
      assert a + b == b;
    } else {
      var next := UnitNext(cur, true, HasCom(a[0]), resetValue);
      assert (a + b)[0] == a[0];
      assert (a + b)[1..] == a[1..] + b;
      DescrambleAppend(a[1..], b, next, enable, resetValue);
    }
  }

  /** The state after a stream is the state after its last beat's predecessor
      moved on by that beat. */
  lemma {:induction false} DescramblerStateSnoc(a: seq<Beat>, c: Beat, cur: bv16, resetValue: bv16)
    ensures DescramblerState(a + [c], cur, resetValue)
         == UnitNext(DescramblerState(a, cur, resetValue), true, HasCom(c), resetValue)
    decreases |a|
  {
    if a == [] {
      assert [c][1..] == [];
    } else {
      assert (a + [c])[1..] == a[1..] + [c];
      DescramblerStateSnoc(a[1..], c, UnitNext(cur, true, HasCom(a[0]), resetValue), resetValue);
    }
  }

  /** Self-synchronisation: once a beat with a K-flagged COM has been
      accepted, what the descrambler emits no longer depends on the state it
      started in; it is the output of a descrambler freshly reset at that
      beat. */
  lemma DescrambleResynchronises(pre: seq<Beat>, com: Beat, post: seq<Beat>, cur: bv16, enable: bool, resetValue: bv16)
    requires HasCom(com)
    ensures DescrambleStream(pre + [com] + post, cur, enable, resetValue)[|pre| + 1..]
         == DescrambleStream(post, resetValue, enable, resetValue)
  {
    DescrambleAppend(pre + [com], post, cur, enable, resetValue);
    DescramblerStateSnoc(pre, com, cur, resetValue);
  }

  /** `ScramblerUnit`: the 16-bit state register `cur` with its reset value,
      clock enable and synchronous reset. */
  class ScramblerUnit {
    const resetValue: bv16
    var cur: bv16

    constructor (resetValue: bv16 := 0xFFFF)
      ensures this.resetValue == resetValue && cur == resetValue
    {
      this.resetValue := resetValue;
      cur := resetValue;
    }

    /** The keystream word for the current beat: the next four keystream
        bytes of the LFSR. */
    function Value(): (r: bv32)
      reads this
      ensures Lanes(r) == KeyBytes(cur, 4)
    {
      UnitValueIsKeyBytes(cur);
      UnitValue(cur)
    }

    /** One clock edge with clock enable `ce` and reset `rst`. */
    method Clock(ce: bool, rst: bool)
      modifies this
      ensures cur == UnitNext(old(cur), ce, rst, resetValue)
    {
      if rst {
        cur := resetValue;
      } else if ce {
        cur := UnitNew(cur);
      }
    }
  }

  /** `Scrambler`: scrambles the data lanes of each beat with the unit's
      keystream and moves the unit on for every accepted beat. */
  class Scrambler {
    const unit: ScramblerUnit
    var enable: bool

    constructor (resetValue: bv16 := 0x7DBD)
      ensures fresh(unit) && unit.resetValue == resetValue && unit.cur == resetValue && enable
    {
      unit := new ScramblerUnit(resetValue);
      enable := true;
    }

    /** One clock cycle: the beat on the sink appears scrambled on the
        source in the same cycle; the unit advances when the beat is
        accepted (`valid` and `ready`) and resets when `unitReset` is driven. */
    method Cycle(b: Beat, valid: bool, ready: bool, unitReset: bool) returns (out: Beat)
      modifies unit
      ensures out == ScrambleBeat(b, enable, UnitValue(old(unit.cur)))
      ensures unit.cur == UnitNext(old(unit.cur), valid && ready, unitReset, unit.resetValue)
    {
      out := ScrambleBeat(b, enable, unit.Value());
      unit.Clock(valid && ready, unitReset);
    }
  }

  /** `Descrambler`: a scrambler whose unit is reset by every accepted beat
      that carries a K-flagged COM. */
  class Descrambler {
    const scrambler: Scrambler
    var enable: bool

    constructor (resetValue: bv16 := 0xFFFF)
      ensures fresh(scrambler) && fresh(scrambler.unit)
      ensures scrambler.unit.resetValue == resetValue && scrambler.unit.cur == resetValue && enable
    {
      scrambler := new Scrambler(resetValue);
      enable := true;
    }

    /** One clock cycle with beat `b` on the sink. */
    method Cycle(b: Beat, valid: bool, ready: bool) returns (out: Beat)
      modifies scrambler, scrambler.unit
      ensures out == ScrambleBeat(b, enable, UnitValue(old(scrambler.unit.cur)))
      ensures scrambler.enable == enable
      ensures scrambler.unit.cur
           == UnitNext(old(scrambler.unit.cur), valid && ready, valid && ready && HasCom(b), scrambler.unit.resetValue)
    {
      scrambler.enable := enable;
      out := scrambler.Cycle(b, valid, ready, valid && ready && HasCom(b));
    }
  }
}
