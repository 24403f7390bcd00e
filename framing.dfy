/** How 16-bit register values travel over the two-wire bus: a register write
    sends the register pointer, then the high byte, then the low byte; a
    register read receives the high byte and then the low byte. Also the
    reinterpretation of a raw 16-bit word as the chip's signed conversion code. */
module BusFraming {

  /** Bits 15:8 of a word. */
  function HighByte(v: bv16): (b: bv8)
    ensures b as bv16 << 8 == v & 0xFF00
  {
    (v >> 8) as bv8
  }

  /** Bits 7:0 of a word. */
  function LowByte(v: bv16): (b: bv8)
    ensures b as bv16 == v & 0x00FF
  {
    (v & 0xFF) as bv8
  }

  /** The word whose high byte arrived first and whose low byte arrived second. */
  function JoinBytes(hi: bv8, lo: bv8): (v: bv16)
    ensures v & 0xFF00 == hi as bv16 << 8 && v & 0x00FF == lo as bv16
  {
    (hi as bv16 << 8) | lo as bv16
  }

  /** Splitting a word into bytes and joining them again gives the word. */
  lemma JoinSplit(v: bv16)
    ensures JoinBytes(HighByte(v), LowByte(v)) == v
  {
  }

  /** Joining two bytes and splitting the word again gives the two bytes. */
  lemma SplitJoin(hi: bv8, lo: bv8)
    ensures HighByte(JoinBytes(hi, lo)) == hi && LowByte(JoinBytes(hi, lo)) == lo
  {
  }

  /** The three bytes of a register write: the pointer, the high byte, the low byte. */
  function WriteFrame(reg: bv8, value: bv16): (bytes: seq<bv8>)
    ensures |bytes| == 3 && bytes[0] == reg
    ensures JoinBytes(bytes[1], bytes[2]) == value
  {
    JoinSplit(value);
    [reg, HighByte(value), LowByte(value)]
  }

  /** The register pointer and the value that the chip takes from a write frame. */
  function ParseWriteFrame(bytes: seq<bv8>): (r: (bv8, bv16))
    requires |bytes| == 3
    ensures WriteFrame(r.0, r.1) == bytes
  {
    SplitJoin(bytes[1], bytes[2]);
    (bytes[0], JoinBytes(bytes[1], bytes[2]))
  }

  /** A write frame is read back as the pointer and the value it was made from. */
  lemma ParseWriteFrameRoundTrip(reg: bv8, value: bv16)
    ensures ParseWriteFrame(WriteFrame(reg, value)) == (reg, value)
  {
  }

  /** The signed 16-bit (two's complement) value of a raw word: the chip's
      conversion code. The driver moves such codes between int16_t and
      uint16_t without changing a bit, so the model keeps them as words and
      uses this function for their meaning. */
  function AsInt16(w: bv16): (x: int)
    ensures -0x8000 <= x < 0x8000
    ensures (x < 0) == (w & 0x8000 != 0)
  {
    if w < 0x8000 then w as int else w as int - 0x10000
  }
}
