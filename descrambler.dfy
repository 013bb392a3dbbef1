/** The two-byte descrambler of descrambler.py. Each cycle it takes one
    tagged word from the ordered-set detector (upper byte first in time),
    XORs the data bytes that are not K symbols and not tagged as part of an
    ordered set with the keystream of the 16-bit LFSR, and picks the next
    LFSR state from the K flags and the COM/SKP identity of the bytes. */
module TwoByteDescrambler {
  import opened Codes
  import opened Lfsr
  import Scrambling

  const LFSR_VALUE_RESET: bv16 := 0xFFFF
  const LFSR_VALUE_NEXT_AFTER_RESET: bv16 := 0xE817

  /** The named constant is the LFSR state one byte after reset. */
  lemma NextAfterResetConstant()
    ensures Next1(LFSR_VALUE_RESET) == LFSR_VALUE_NEXT_AFTER_RESET
  {
    NextAfterReset();
  }

  /** The next LFSR state: by ctrl, then by the COM/SKP identity of the K
      byte(s). Both bytes data: two bytes on. One K byte: COM restarts the
      sequence, SKP does not advance it, any other K advances it. */
  function NextValue(value: bv16, data: bv16, ctrl: bv2): bv16
  {
    var hi := Upper(data);
    var lo := Lower(data);
    if ctrl == 0 then Next2(value)
    else if ctrl == 1 then
      (if lo == COM then LFSR_VALUE_RESET else if lo == SKP then Next1(value) else Next2(value))
    else if ctrl == 2 then
      (if hi == COM then LFSR_VALUE_NEXT_AFTER_RESET else if hi == SKP then Next1(value) else Next2(value))
    else if lo == COM then LFSR_VALUE_RESET
    else if hi == COM then (if lo == SKP then LFSR_VALUE_RESET else LFSR_VALUE_NEXT_AFTER_RESET)
    else if hi == SKP then (if lo == SKP then value else Next1(value))
    else if lo == SKP then Next1(value)
    else Next2(value)
  }

  /** The upper byte after the ctrl cases: a K symbol passes, a data byte
      is XORed with the keystream byte of the current state. */
  function DescrambledUpper(value: bv16, data: bv16, ctrl: bv2): bv8
  {
    if ctrl == 0 || ctrl == 1 then Upper(data) ^ KeyByte(value) else Upper(data)
  }

  /** The lower byte after the ctrl cases: a K symbol passes; after a data
      byte it is XORed with the keystream one byte on; after a COM with FFh;
      after any other K symbol with the keystream byte of the current state. */
  function DescrambledLower(value: bv16, data: bv16, ctrl: bv2): bv8
  {
    if ctrl == 0 then Lower(data) ^ KeyByte(Next1(value))
    else if ctrl == 2 then (if Upper(data) == COM then Lower(data) ^ 0xFF else Lower(data) ^ KeyByte(value))
    else Lower(data)
  }

  /** The output bytes: a lane the detector tagged as part of an ordered set
      (osets bit 1 upper, bit 0 lower) is passed through whatever its K flag. */
  function UpperOut(value: bv16, data: bv16, ctrl: bv2, osets: bv2): bv8
  {
    if osets & 2 != 0 then Upper(data) else DescrambledUpper(value, data, ctrl)
  }

  function LowerOut(value: bv16, data: bv16, ctrl: bv2, osets: bv2): bv8
  {
    if osets & 1 != 0 then Lower(data) else DescrambledLower(value, data, ctrl)
  }

  /** The registered output word for input word `sink` with LFSR state `value`. */
  function Output(value: bv16, sink: Tagged): (r: Tagged)
    ensures r.ctrl == sink.ctrl && r.osets == sink.osets && r.kind == sink.kind
    ensures Upper(r.data) == UpperOut(value, sink.data, sink.ctrl, sink.osets)
    ensures Lower(r.data) == LowerOut(value, sink.data, sink.ctrl, sink.osets)
  {
    Tagged(Join(UpperOut(value, sink.data, sink.ctrl, sink.osets), LowerOut(value, sink.data, sink.ctrl, sink.osets)),
           sink.ctrl, sink.osets, sink.kind)
  }

  /** The gateware's sequential block for one input word, with the LFSR
      register `value` before the edge: the output bytes and the LFSR
      register after the edge. A later assignment to the same bits wins.
      The four ctrl cases, and the three cases on the upper byte when both
      bytes are K symbols, test exclusive conditions and are chained with
      `else`. */
  method Descramble(value: bv16, data: bv16, ctrl: bv2, osets: bv2) returns (outHi: bv8, outLo: bv8, next: bv16)
    ensures outHi == UpperOut(value, data, ctrl, osets)
    ensures outLo == LowerOut(value, data, ctrl, osets)
    ensures next == NextValue(value, data, ctrl)
  {
    outHi, outLo, next := 0, 0, value;
    if ctrl == 0 {
      outHi := Upper(data) ^ KeyByte(value);
      outLo := Lower(data) ^ KeyByte(Next1(value));
      next := Next2(value);
    } else if ctrl == 1 {
      outHi := Upper(data) ^ KeyByte(value);
      outLo := Lower(data);
      if Lower(data) == COM {
        next := LFSR_VALUE_RESET;
      } else if Lower(data) == SKP {
        next := Next1(value);
      } else {
        next := Next2(value);
      }
    } else if ctrl == 2 {
      outLo := Lower(data) ^ KeyByte(value);
      outHi := Upper(data);
      if Upper(data) == COM {
        outLo := Lower(data) ^ 0xFF;
        next := LFSR_VALUE_NEXT_AFTER_RESET;
      } else if Upper(data) == SKP {
        next := Next1(value);
      } else {
        next := Next2(value);
      }
    } else {
      outHi, outLo := Upper(data), Lower(data);
      if Upper(data) == COM {
        if Lower(data) == COM {
          next := LFSR_VALUE_RESET;
        } else if Lower(data) == SKP {
          next := LFSR_VALUE_RESET;
        } else {
          next := LFSR_VALUE_NEXT_AFTER_RESET;
        }
      } else if Upper(data) == SKP {
        if Lower(data) == COM {
          next := LFSR_VALUE_RESET;
        } else if Lower(data) != COM && Lower(data) != SKP {
          next := Next1(value);
        }
      } else {
        if Lower(data) == COM {
          next := LFSR_VALUE_RESET;
        } else if Lower(data) == SKP {
          next := Next1(value);
        } else {
          next := Next2(value);
        }
      }
    }
    if osets & 1 != 0 {
      outLo := Lower(data);
    }
    if osets & 2 != 0 {
      outHi := Upper(data);
    }
  }

  /** The `Descrambler` module: the LFSR register and the output registers. */
  class Descrambler {
    var value: bv16
    var source: Tagged

    constructor ()
      ensures value == LFSR_VALUE_RESET && source == Tagged(0, 0, 0, Data)
    {
      value := LFSR_VALUE_RESET;
      source := Tagged(0, 0, 0, Data);
    }

    /** One clock edge with `sink` on the input. */
    method Step(sink: Tagged)
      modifies this
      ensures value == NextValue(old(value), sink.data, sink.ctrl)
      ensures source == Output(old(value), sink)
    {
      var outHi, outLo, next := Descramble(value, sink.data, sink.ctrl, sink.osets);
      source := Tagged(Join(outHi, outLo), sink.ctrl, sink.osets, sink.kind);
      value := next;
    }
  }

  /** The keystream byte of the reset state is 0xFF. */
  lemma KeyByteOfReset()
    ensures KeyByte(LFSR_VALUE_RESET) == 0xFF
  {
  }

  /** A lane tagged by the detector leaves the descrambler unchanged,
      whatever its K flag says. */
  lemma TaggedLanesPassThrough(value: bv16, data: bv16, ctrl: bv2, osets: bv2)
    ensures osets & 1 != 0 ==> LowerOut(value, data, ctrl, osets) == Lower(data)
    ensures osets & 2 != 0 ==> UpperOut(value, data, ctrl, osets) == Upper(data)
  {
  }

  /** A K symbol is never altered. */
  lemma KSymbolsPassThrough(value: bv16, data: bv16, ctrl: bv2, osets: bv2)
    ensures ctrl & 1 != 0 ==> LowerOut(value, data, ctrl, osets) == Lower(data)
    ensures ctrl & 2 != 0 ==> UpperOut(value, data, ctrl, osets) == Upper(data)
  {
  }

  // Serial reference -------------------------------------------------------

  /** One symbol through the descrambler of section 4.2.3 of the PCI Express
      Base Specification 1.1, one byte at a time: a K symbol passes
      unchanged, a data byte is XORed with the keystream byte of the
      current state. */
  function SerialOut(s: bv16, b: bv8, k: bool): bv8
  {
    if k then b else b ^ KeyByte(s)
  }

  /** The LFSR state after one symbol: COM restarts it at FFFFh, SKP does
      not advance it, every other symbol advances it by one byte. */
  function SerialNext(s: bv16, b: bv8, k: bool): bv16
  {
    if k && b == COM then LFSR_VALUE_RESET
    else if k && b == SKP then s
    else Next1(s)
  }

  /** The state between the two symbols of a word (upper byte first). */
  function SerialMiddle(s: bv16, data: bv16, ctrl: bv2): bv16
  {
    SerialNext(s, Upper(data), ctrl & 2 != 0)
  }

  // The state between the two symbols, case by case.

  lemma MiddleAfterData(s: bv16, data: bv16, ctrl: bv2)
    requires ctrl == 0 || ctrl == 1
    ensures SerialMiddle(s, data, ctrl) == Next1(s)
  {
  }

  lemma MiddleAfterCom(s: bv16, data: bv16, ctrl: bv2)
    requires (ctrl == 2 || ctrl == 3) && Upper(data) == COM
    ensures SerialMiddle(s, data, ctrl) == LFSR_VALUE_RESET
  {
  }

  lemma MiddleAfterSkp(s: bv16, data: bv16, ctrl: bv2)
    requires (ctrl == 2 || ctrl == 3) && Upper(data) == SKP
    ensures SerialMiddle(s, data, ctrl) == s
  {
  }

  lemma MiddleAfterOtherK(s: bv16, data: bv16, ctrl: bv2)
    requires (ctrl == 2 || ctrl == 3) && Upper(data) != COM && Upper(data) != SKP
    ensures SerialMiddle(s, data, ctrl) == Next1(s)
  {
  }

  /** Two symbols through the serial descrambler, upper byte first: the two
      output bytes (a tagged lane is not descrambled but still drives the
      LFSR like any other symbol) and the state after both. */
  function SerialUpper(s: bv16, data: bv16, ctrl: bv2, osets: bv2): bv8
  {
    if osets & 2 != 0 then Upper(data) else SerialOut(s, Upper(data), ctrl & 2 != 0)
  }

  function SerialLower(s: bv16, data: bv16, ctrl: bv2, osets: bv2): bv8
  {
    if osets & 1 != 0 then Lower(data) else SerialOut(SerialMiddle(s, data, ctrl), Lower(data), ctrl & 1 != 0)
  }

  function SerialState(s: bv16, data: bv16, ctrl: bv2): bv16
  {
    SerialNext(SerialMiddle(s, data, ctrl), Lower(data), ctrl & 1 != 0)
  }

  /** The LFSR of the descrambler follows the serial reference in every case,
      including SKP/SKP holding the state and COM restarting it. */
  lemma NextValueIsSerial(value: bv16, data: bv16, ctrl: bv2)
    ensures NextValue(value, data, ctrl) == SerialState(value, data, ctrl)
  {
    Next2IsNext1Twice(value);
    NextAfterReset();
  }

  /** The upper output byte follows the serial reference. */
  lemma UpperOutIsSerial(value: bv16, data: bv16, ctrl: bv2, osets: bv2)
    ensures UpperOut(value, data, ctrl, osets) == SerialUpper(value, data, ctrl, osets)
  {
  }

  /** The gateware's lower-lane quirk: an upper K symbol other than COM and
      SKP followed by an untagged data byte. */
  predicate OtherKThenData(data: bv16, ctrl: bv2, osets: bv2)
  {
    ctrl == 2 && osets & 1 == 0 && Upper(data) != COM && Upper(data) != SKP
  }

  /** The lower byte after the ctrl cases as evidently intended: after a K
      symbol other than COM and SKP the data byte takes the keystream one
      byte on, as after a data byte. */
  function CorrectedDescrambledLower(value: bv16, data: bv16, ctrl: bv2): bv8
  {
    if ctrl == 0 then Lower(data) ^ KeyByte(Next1(value))
    else if ctrl == 2 then
      (if Upper(data) == COM then Lower(data) ^ 0xFF
       else if Upper(data) == SKP then Lower(data) ^ KeyByte(value)
       else Lower(data) ^ KeyByte(Next1(value)))
    else Lower(data)
  }

  function CorrectedLowerOut(value: bv16, data: bv16, ctrl: bv2, osets: bv2): bv8
  {
    if osets & 1 != 0 then Lower(data) else CorrectedDescrambledLower(value, data, ctrl)
  }

  // Evaluation of the lower byte, case by case. Each case is stated on its
  // own so that the lemmas below only chain equalities.

  lemma LowerTagged(value: bv16, data: bv16, ctrl: bv2, osets: bv2)
    requires osets & 1 != 0
    ensures LowerOut(value, data, ctrl, osets) == Lower(data)
    ensures SerialLower(value, data, ctrl, osets) == Lower(data)
    ensures CorrectedLowerOut(value, data, ctrl, osets) == Lower(data)
  {
  }

  lemma LowerIsK(value: bv16, data: bv16, ctrl: bv2, osets: bv2)
    requires osets & 1 == 0 && (ctrl == 1 || ctrl == 3)
    ensures LowerOut(value, data, ctrl, osets) == Lower(data)
    ensures SerialLower(value, data, ctrl, osets) == Lower(data)
    ensures CorrectedLowerOut(value, data, ctrl, osets) == Lower(data)
  {
  }

  lemma LowerAfterData(value: bv16, data: bv16, ctrl: bv2, osets: bv2)
    requires osets & 1 == 0 && ctrl == 0
    ensures LowerOut(value, data, ctrl, osets) == Lower(data) ^ KeyByte(Next1(value))
    ensures CorrectedLowerOut(value, data, ctrl, osets) == Lower(data) ^ KeyByte(Next1(value))
  {
  }

  lemma LowerAfterCom(value: bv16, data: bv16, ctrl: bv2, osets: bv2)
    requires osets & 1 == 0 && ctrl == 2 && Upper(data) == COM
    ensures LowerOut(value, data, ctrl, osets) == Lower(data) ^ 0xFF
    ensures CorrectedLowerOut(value, data, ctrl, osets) == Lower(data) ^ 0xFF
  {
  }

  lemma LowerAfterSkp(value: bv16, data: bv16, ctrl: bv2, osets: bv2)
    requires osets & 1 == 0 && ctrl == 2 && Upper(data) == SKP
    ensures LowerOut(value, data, ctrl, osets) == Lower(data) ^ KeyByte(value)
    ensures CorrectedLowerOut(value, data, ctrl, osets) == Lower(data) ^ KeyByte(value)
  {
  }

  lemma LowerAfterOtherK(value: bv16, data: bv16, ctrl: bv2, osets: bv2)
    requires osets & 1 == 0 && ctrl == 2 && Upper(data) != COM && Upper(data) != SKP
    ensures LowerOut(value, data, ctrl, osets) == Lower(data) ^ KeyByte(value)
    ensures CorrectedLowerOut(value, data, ctrl, osets) == Lower(data) ^ KeyByte(Next1(value))
  {
  }

  lemma SerialLowerOfData(value: bv16, data: bv16, ctrl: bv2, osets: bv2)
    requires osets & 1 == 0 && (ctrl == 0 || ctrl == 2)
    ensures SerialLower(value, data, ctrl, osets) == SerialOut(SerialMiddle(value, data, ctrl), Lower(data), false)
  {
  }

  lemma SerialOutOfData(s: bv16, b: bv8)
    ensures SerialOut(s, b, false) == b ^ KeyByte(s)
  {
  }

  /** The lower output byte follows the serial reference except after an
      upper K symbol other than COM and SKP. */
  lemma LowerOutIsSerial(value: bv16, data: bv16, ctrl: bv2, osets: bv2)
    requires !OtherKThenData(data, ctrl, osets)
    ensures LowerOut(value, data, ctrl, osets) == SerialLower(value, data, ctrl, osets)
  {
    if osets & 1 != 0 {
      LowerTagged(value, data, ctrl, osets);
    } else if ctrl == 1 || ctrl == 3 {
      LowerIsK(value, data, ctrl, osets);
    } else if ctrl == 0 {
      LowerAfterData(value, data, ctrl, osets);
      SerialLowerOfData(value, data, ctrl, osets);
      SerialOutOfData(SerialMiddle(value, data, ctrl), Lower(data));
      MiddleAfterData(value, data, ctrl);
    } else if Upper(data) == COM {
      LowerAfterCom(value, data, ctrl, osets);
      SerialLowerOfData(value, data, ctrl, osets);
      SerialOutOfData(SerialMiddle(value, data, ctrl), Lower(data));
      MiddleAfterCom(value, data, ctrl);
      KeyByteOfReset();
    } else {
      LowerAfterSkp(value, data, ctrl, osets);
      SerialLowerOfData(value, data, ctrl, osets);
      SerialOutOfData(SerialMiddle(value, data, ctrl), Lower(data));
      MiddleAfterSkp(value, data, ctrl);
    }
  }

  /** In that case the gateware XORs with the keystream byte of the current
      state while the serial reference has advanced one byte past the K
      symbol: after reset, K27.7 followed by the data byte 00h comes out as
      FFh where the reference gives 17h. */
  lemma OtherKThenDataExample()
    ensures OtherKThenData(0xFB00, 2, 0)
    ensures LowerOut(LFSR_VALUE_RESET, 0xFB00, 2, 0) == 0xFF
    ensures SerialLower(LFSR_VALUE_RESET, 0xFB00, 2, 0) == 0x17
  {
    NextAfterReset();
  }

  /** The corrected lower byte follows the serial reference for every input. */
  lemma CorrectedLowerOutIsSerial(value: bv16, data: bv16, ctrl: bv2, osets: bv2)
    ensures CorrectedLowerOut(value, data, ctrl, osets) == SerialLower(value, data, ctrl, osets)
  {
    if osets & 1 != 0 {
      LowerTagged(value, data, ctrl, osets);
    } else if ctrl == 1 || ctrl == 3 {
      LowerIsK(value, data, ctrl, osets);
    } else if ctrl == 0 {
      LowerAfterData(value, data, ctrl, osets);
      SerialLowerOfData(value, data, ctrl, osets);
      SerialOutOfData(SerialMiddle(value, data, ctrl), Lower(data));
      MiddleAfterData(value, data, ctrl);
    } else if Upper(data) == COM {
      LowerAfterCom(value, data, ctrl, osets);
      SerialLowerOfData(value, data, ctrl, osets);
      SerialOutOfData(SerialMiddle(value, data, ctrl), Lower(data));
      MiddleAfterCom(value, data, ctrl);
      KeyByteOfReset();
    } else if Upper(data) == SKP {
      LowerAfterSkp(value, data, ctrl, osets);
      SerialLowerOfData(value, data, ctrl, osets);
      SerialOutOfData(SerialMiddle(value, data, ctrl), Lower(data));
      MiddleAfterSkp(value, data, ctrl);
    } else {
      LowerAfterOtherK(value, data, ctrl, osets);
      SerialLowerOfData(value, data, ctrl, osets);
      SerialOutOfData(SerialMiddle(value, data, ctrl), Lower(data));
      MiddleAfterOtherK(value, data, ctrl);
    }
  }

  /** Outside that case the corrected byte is the gateware's. */
  lemma CorrectedLowerOutAgrees(value: bv16, data: bv16, ctrl: bv2, osets: bv2)
    requires !OtherKThenData(data, ctrl, osets)
    ensures CorrectedLowerOut(value, data, ctrl, osets) == LowerOut(value, data, ctrl, osets)
  {
    if osets & 1 != 0 {
      LowerTagged(value, data, ctrl, osets);
    } else if ctrl == 1 || ctrl == 3 {
      LowerIsK(value, data, ctrl, osets);
    } else if ctrl == 0 {
      LowerAfterData(value, data, ctrl, osets);
    } else if Upper(data) == COM {
      LowerAfterCom(value, data, ctrl, osets);
    } else {
      LowerAfterSkp(value, data, ctrl, osets);
    }
  }

  // Agreement with the four-byte scrambler ---------------------------------

  /** An upper data byte takes the same keystream byte here as the first
      lane of the four-byte scrambler unit from the same state. */
  lemma UpperKeystreamAgrees(value: bv16, data: bv16)
    ensures UpperOut(value, data, 0, 0) == Upper(data) ^ Scrambling.Lane(Scrambling.UnitValue(value), 0)
  {
    Scrambling.ValueLane0(value);
  }

  /** A lower data byte after a data byte takes the keystream byte of the
      second lane. */
  lemma LowerKeystreamAgrees(value: bv16, data: bv16)
    ensures LowerOut(value, data, 0, 0) == Lower(data) ^ Scrambling.Lane(Scrambling.UnitValue(value), 1)
  {
    Scrambling.ValueLane1(value);
  }
}
