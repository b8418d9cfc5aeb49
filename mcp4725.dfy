/**
 * The MCP4725 digital-to-analogue converter: a 12-bit value is sent as two
 * bytes, big-endian, shifted left by four bits.
 */
module Mcp4725 {

  /** Command byte for a plain DAC write, and for a DAC and EEPROM write. */
  const WRITEDAC: bv8 := 0x40
  const WRITEDAC_EEPROM: bv8 := 0x60

  /** The two bytes of (value << 4) & 0xfff0, most significant first. */
  function ToBytes(value: bv16): (b: seq<bv8>)
    ensures |b| == 2
    ensures b[0] == ((value >> 4) & 0xff) as bv8
    ensures b[1] == ((value & 0xf) << 4) as bv8
    ensures b[1] & 0x0f == 0
  {
    var word := (value << 4) & 0xfff0;
    [(word >> 8) as bv8, (word & 0xff) as bv8]
  }

  /** Only the low 12 bits of the value reach the converter. */
  lemma OnlyLowTwelveBitsMatter(value: bv16)
    ensures ToBytes(value) == ToBytes(value & 0xfff)
  {
  }

  /** Reading the two bytes back as a big-endian word and dropping the 4 padding bits gives the 12-bit value. */
  lemma RoundTrip(value: bv16)
    ensures var b := ToBytes(value);
            (((b[0] as bv16) << 8) | (b[1] as bv16)) >> 4 == value & 0xfff
  {
  }

  /** The conversions checked by the driver's tests. */
  lemma ToBytesExamples()
    ensures ToBytes(0xfff) == [0xff, 0xf0]
    ensures ToBytes(0x4fff) == [0xff, 0xf0]
    ensures ToBytes(0x000) == [0x00, 0x00]
    ensures ToBytes(0x1000) == [0x00, 0x00]
    ensures ToBytes(0x800) == [0x80, 0x00]
  {
  }

  /** A write on the I2C bus: the register (command) and the data bytes. */
  datatype Write = Write(register: bv8, data: seq<bv8>)

  /** Setting the output writes the encoded value with the plain DAC command. */
  function SetValue(value: bv16): (w: Write)
    ensures w.register == WRITEDAC && |w.data| == 2
    ensures (((w.data[0] as bv16) << 8) | (w.data[1] as bv16)) >> 4 == value & 0xfff
  {
    RoundTrip(value);
    Write(WRITEDAC, ToBytes(value))
  }
}
