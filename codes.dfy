/** Symbol codes of the 8b/10b alphabet and the word layouts shared by the
    stages of the receive pipeline. */
module Codes {

  /** The byte value of the 8b/10b symbol Kx.y or Dx.y: `y` in the top three
      bits, `x` in the low five (the K and D helpers of the gateware are the
      same formula). */
  function Code(x: bv8, y: bv8): (r: bv8)
    requires x < 32 && y < 8
    ensures r & 0x1F == x && r >> 5 == y
  {
    (y << 5) | x
  }

  const COM: bv8 := Code(28, 5)     // K28.5, 0xBC
  const SKP: bv8 := Code(28, 0)     // K28.0, 0x1C
  const FTS: bv8 := Code(28, 1)     // K28.1, 0x3C
  const IDL: bv8 := Code(28, 3)     // K28.3, 0x7C
  const TS1_ID: bv8 := Code(10, 2)  // D10.2, 0x4A
  const TS2_ID: bv8 := Code(5, 2)   // D5.2, 0x45
  const COMPLIANCE_ID: bv8 := Code(21, 5)  // D21.5, 0xB5

  /** Upper byte (bits 8..15) of a 16-bit word. */
  function Upper(d: bv16): bv8 { (d >> 8) as bv8 }

  /** Lower byte (bits 0..7) of a 16-bit word. */
  function Lower(d: bv16): bv8 { (d & 0xFF) as bv8 }

  /** The 16-bit word with `hi` in the upper byte and `lo` in the lower byte. */
  function Join(hi: bv8, lo: bv8): (r: bv16)
    ensures Upper(r) == hi && Lower(r) == lo
  {
    ((hi as bv16) << 8) | (lo as bv16)
  }

  /** TWO(x): the same byte in both halves of a 16-bit word. */
  function Two(b: bv8): (r: bv16)
    ensures Upper(r) == b && Lower(r) == b
  {
    ((b as bv16) << 8) + (b as bv16)
  }

  /** Two symbols with their K flags: `data` holds the bytes, `ctrl` bit 0
      flags the lower byte as a K symbol and bit 1 the upper byte. This is
      the 18-bit layout of the detector's window registers and of the
      16-bit data/ctrl stream. */
  datatype Word = Word(data: bv16, ctrl: bv2)

  predicate UpperK(w: Word) { w.ctrl & 2 != 0 }
  predicate LowerK(w: Word) { w.ctrl & 1 != 0 }

  /** Classification of an ordered set (`osetsType`), numbered as in the gateware. */
  datatype OsetsType = Data | Skip | Idle | Fts | Ts1 | Ts2 | Compliance | ModifiedCompliance

  /** One beat of the tagged stream between the detector and the descrambler:
      data and ctrl as in `Word`, the 2-bit "do not descramble" mask `osets`
      (bit 0 the lower byte, bit 1 the upper byte) and the classification. */
  datatype Tagged = Tagged(data: bv16, ctrl: bv2, osets: bv2, kind: OsetsType)
}
