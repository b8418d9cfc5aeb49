/**
 * The HMC5883L magnetometer driver: read-modify-write updates of its
 * configuration registers, the gain table, the identity check and the
 * decoding of its 16-bit readings. The I2C bus is a register map.
 */
module Hmc5883l {
  import opened Wrappers

  /** An 8-bit register address; the bytes the registers hold are `bv8`. */
  type Register = r: int | 0 <= r < 256

  const REG_CONFIG_A: Register := 0x00
  const REG_CONFIG_B: Register := 0x01
  const REG_MODE: Register := 0x02
  const REG_IDENT_A: Register := 0x0A
  const REG_IDENT_B: Register := 0x0B
  const REG_IDENT_C: Register := 0x0C

  const SAMPLES_1: bv8 := 0
  const DATARATE_15HZ: bv8 := 4
  const RANGE_1_3GA: bv8 := 1
  const CONTINOUS: bv8 := 0

  // ---------------------------------------------------------------------
  // Register values

  /** MODE keeps bits 2-7 and takes the mode in bits 0-1. */
  function MeasurementModeByte(value: bv8, mode: bv8): (v: bv8)
    ensures v & 0xFC == (value & 0xFC) | (mode & 0xFC)
    ensures mode < 4 ==> v & 0x03 == mode && v & 0xFC == value & 0xFC
  {
    (value & 0xFC) | mode
  }

  /** CONFIG_A keeps bits 0-1 and 5-7 and takes the data rate in bits 2-4. */
  function DataRateByte(value: bv8, dataRate: bv8): (v: bv8)
    ensures dataRate < 8 ==> (v >> 2) & 0x07 == dataRate && v & 0xE3 == value & 0xE3
  {
    (value & 0xE3) | (dataRate << 2)
  }

  /** CONFIG_A keeps bits 0-4 and 7 and takes the sample count in bits 5-6. */
  function SamplesByte(value: bv8, samples: bv8): (v: bv8)
    ensures samples < 4 ==> (v >> 5) & 0x03 == samples && v & 0x9F == value & 0x9F
  {
    (value & 0x9F) | (samples << 5)
  }

  /** CONFIG_B holds the range in bits 5-7 and zeros below; higher range bits are shifted out. */
  function RangeByte(r: bv8): (v: bv8)
    ensures v & 0x1F == 0
    ensures v >> 5 == r & 0x07
  {
    r << 5
  }

  /** Setting the data rate and then the samples, both in range, leaves each field as set. */
  lemma DataRateThenSamples(value: bv8, dataRate: bv8, samples: bv8)
    requires dataRate < 8 && samples < 4
    ensures var v := SamplesByte(DataRateByte(value, dataRate), samples);
            (v >> 2) & 0x07 == dataRate && (v >> 5) & 0x03 == samples && v & 0x83 == value & 0x83
  {
  }

  /** Milligauss per digit for each of the eight ranges; no entry for any other byte. */
  function MgPerDigit(r: bv8): (g: Option<real>)
    ensures g.Some? <==> r < 8
    ensures g.Some? ==> g.value > 0.0
  {
    match r
    case 0 => Some(0.073)
    case 1 => Some(0.92)
    case 2 => Some(1.22)
    case 3 => Some(1.52)
    case 4 => Some(2.27)
    case 5 => Some(2.56)
    case 6 => Some(3.03)
    case 7 => Some(4.35)
    case _ => None
  }

  /** A wider range gives more milligauss per digit. */
  lemma GainGrowsWithRange(r: bv8, s: bv8)
    requires r < s < 8
    ensures MgPerDigit(r).value < MgPerDigit(s).value
  {
  }

  /** The identity registers of an HMC5883L read "H43". */
  predicate IsHmc5883lIdentity(a: bv8, b: bv8, c: bv8)
  {
    a == 0x48 && b == 0x34 && c == 0x33
  }

  // ---------------------------------------------------------------------
  // 16-bit readings

  /** A byte of a block read from the device, as its unsigned value. */
  type Octet = b: int | 0 <= b < 256

  /**
   * Two bytes, least significant first, as a two's-complement int16. With
   * fewer than two bytes the read fails and the result stays 0; bytes past
   * the second are not read.
   */
  function ReadInt16(data: seq<Octet>): (x: int)
    ensures -32768 <= x < 32768
    ensures |data| < 2 ==> x == 0
  {
    if |data| < 2 then 0
    else
      var u: int := data[1] as int * 256 + data[0] as int;
      if u >= 32768 then u - 65536 else u
  }

  /** The little-endian bytes of an int16, as the device sends them. */
  function EncodeInt16(x: int): (b: seq<Octet>)
    requires -32768 <= x < 32768
    ensures |b| == 2
  {
    var u := if x < 0 then x + 65536 else x;
    [u % 256, u / 256]
  }

  lemma {:induction false} DecodeEncode(x: int)
    requires -32768 <= x < 32768
    ensures ReadInt16(EncodeInt16(x)) == x
  {
    var u := if x < 0 then x + 65536 else x;
    assert u == (u / 256) * 256 + u % 256;
  }

  lemma {:induction false} EncodeDecode(data: seq<Octet>)
    requires |data| >= 2
    ensures EncodeInt16(ReadInt16(data)) == data[..2]
  {
    var u: int := data[1] as int * 256 + data[0] as int;
    DivModOf(u, data[1], data[0]);
  }

  lemma DivModOf(u: int, hi: int, lo: int)
    requires u == hi * 256 + lo && 0 <= lo < 256
    ensures u / 256 == hi && u % 256 == lo
  {
  }

  /**
   * An axis reading as the driver decodes it: the two-byte block read from
   * the axis's M register (most significant byte; X at 0x03, its L register
   * at 0x04) onward, passed to the little-endian decode.
   */
  function AxisReadingAsWritten(block: seq<Octet>): (x: int)
    ensures -32768 <= x < 32768
    ensures |block| >= 2 ==> x % 256 == block[0] as int
  {
    ReadInt16(block)
  }

  /**
   * An axis reading with the block's first byte, from the M register, as
   * the most significant one.
   */
  function AxisReading(block: seq<Octet>): (x: int)
    ensures -32768 <= x < 32768
    ensures |block| < 2 ==> x == 0
    ensures |block| >= 2 ==> x % 256 == block[1] as int
  {
    if |block| < 2 then 0 else ReadInt16([block[1], block[0]])
  }

  /** The bytes an axis register pair holds for a reading: M register first. */
  function AxisRegisters(x: int): (b: seq<Octet>)
    requires -32768 <= x < 32768
    ensures |b| == 2
  {
    var le := EncodeInt16(x);
    [le[1], le[0]]
  }

  /** Every reading the registers can hold is decoded back to itself. */
  lemma {:induction false} AxisReadingRoundTrip(x: int)
    requires -32768 <= x < 32768
    ensures AxisReading(AxisRegisters(x)) == x
  {
    var le := EncodeInt16(x);
    DecodeEncode(x);
    assert [AxisRegisters(x)[1], AxisRegisters(x)[0]] == le;
  }

  /**
   * The registers M = 0x01, L = 0x00 hold 256; the as-written decode reads
   * 1, the corrected one 256.
   */
  lemma AxisReadingByteOrder()
    ensures AxisRegisters(256) == [0x01, 0x00]
    ensures AxisReadingAsWritten(AxisRegisters(256)) == 1
    ensures AxisReading(AxisRegisters(256)) == 256
  {
    AxisReadingRoundTrip(256);
  }

  /**
   * The four writes of the start-up configuration, given the MODE and
   * CONFIG_A bytes found on the device: range 1.3 Ga, continuous mode,
   * 15 Hz and one sample. The sample count is merged into CONFIG_A as read
   * back after the data-rate write, which a failing bus did not apply.
   */
  function ConfigurationWrites(mode: bv8, configA: bv8, writeFails: bool): (w: seq<(Register, bv8)>)
    ensures |w| == 4
    ensures w[0].0 == REG_CONFIG_B && w[1].0 == REG_MODE && w[2].0 == REG_CONFIG_A && w[3].0 == REG_CONFIG_A
    ensures !writeFails ==>
              (w[3].1 >> 2) & 0x07 == DATARATE_15HZ && (w[3].1 >> 5) & 0x03 == SAMPLES_1
              && w[3].1 & 0x83 == configA & 0x83
    ensures w[0].1 >> 5 == RANGE_1_3GA && w[1].1 & 0x03 == CONTINOUS
  {
    var rate := DataRateByte(configA, DATARATE_15HZ);
    DataRateThenSamples(configA, DATARATE_15HZ, SAMPLES_1);
    [(REG_CONFIG_B, RangeByte(RANGE_1_3GA)),
     (REG_MODE, MeasurementModeByte(mode, CONTINOUS)),
     (REG_CONFIG_A, rate),
     (REG_CONFIG_A, SamplesByte(if writeFails then configA else rate, SAMPLES_1))]
  }

  /** The byte a register holds; a register never written reads as zero. */
  function Lookup(registers: map<Register, bv8>, reg: Register): bv8
  {
    if reg in registers then registers[reg] else 0
  }

  /** The register file after a sequence of successful writes, oldest first. */
  function Apply(registers: map<Register, bv8>, writes: seq<(Register, bv8)>): map<Register, bv8>
    decreases |writes|
  {
    if writes == [] then registers
    else Apply(registers[writes[0].0 := writes[0].1], writes[1..])
  }

  /** One more write updates the register file replayed so far. */
  lemma {:induction false} ApplyOneMore(registers: map<Register, bv8>, writes: seq<(Register, bv8)>, w: (Register, bv8))
    ensures Apply(registers, writes + [w]) == Apply(registers, writes)[w.0 := w.1]
    decreases |writes|
  {
    if writes == [] {
      assert [w][1..] == [];
    } else {
      assert (writes + [w])[1..] == writes[1..] + [w];
      ApplyOneMore(registers[writes[0].0 := writes[0].1], writes[1..], w);
    }
  }

  /** Replaying two traces one after the other is replaying their concatenation. */
  lemma {:induction false} ApplyConcat(registers: map<Register, bv8>, first: seq<(Register, bv8)>, second: seq<(Register, bv8)>)
    ensures Apply(registers, first + second) == Apply(Apply(registers, first), second)
    decreases |first|
  {
    if first == [] {
      assert first + second == second;
    } else {
      assert (first + second)[1..] == first[1..] + second;
      ApplyConcat(registers[first[0].0 := first[0].1], first[1..], second);
    }
  }

  /** The register file after the start-up configuration on a bus whose writes succeed. */
  function Configured(registers: map<Register, bv8>): (r: map<Register, bv8>)
    ensures r.Keys == registers.Keys + {REG_CONFIG_B, REG_MODE, REG_CONFIG_A}
    ensures forall reg :: reg in registers && reg !in {REG_CONFIG_B, REG_MODE, REG_CONFIG_A} ==> r[reg] == registers[reg]
    ensures r[REG_CONFIG_B] >> 5 == RANGE_1_3GA
    ensures r[REG_MODE] & 0x03 == CONTINOUS
    ensures (r[REG_CONFIG_A] >> 2) & 0x07 == DATARATE_15HZ && (r[REG_CONFIG_A] >> 5) & 0x03 == SAMPLES_1
  {
    var w := ConfigurationWrites(Lookup(registers, REG_MODE), Lookup(registers, REG_CONFIG_A), false);
    var r := Apply(registers, w);
    assert r == registers[REG_CONFIG_B := w[0].1][REG_MODE := w[1].1][REG_CONFIG_A := w[2].1][REG_CONFIG_A := w[3].1] by {
      ApplyOneMore(registers, w[..3], w[3]);
      ApplyOneMore(registers, w[..2], w[2]);
      ApplyOneMore(registers, w[..1], w[1]);
      ApplyOneMore(registers, [], w[0]);
      assert w[..3] + [w[3]] == w && w[..2] + [w[2]] == w[..3] && w[..1] + [w[1]] == w[..2] && [] + [w[0]] == w[..1];
    }
    r
  }

  // ---------------------------------------------------------------------
  // The bus and the device

  datatype BusError = BusError

  /** The I2C bus seen as the device's register file. */
  class Bus {
    var registers: map<Register, bv8>
    /** Every write attempted, oldest first. */
    var writes: seq<(Register, bv8)>
    const readFails: bool
    const writeFails: bool
    /** The register file before the first write. */
    ghost const initial: map<Register, bv8>

    /** The register file is the initial one with every successful write replayed. */
    ghost predicate Valid()
      reads this
    {
      registers == if writeFails then initial else Apply(initial, writes)
    }

    constructor (registers: map<Register, bv8>, readFails: bool, writeFails: bool)
      ensures this.registers == registers && writes == []
      ensures this.readFails == readFails && this.writeFails == writeFails
      ensures Valid()
    {
      this.registers := registers;
      writes := [];
      this.readFails := readFails;
      this.writeFails := writeFails;
      initial := registers;
    }

    function Get(reg: Register): bv8
      reads this
    {
      Lookup(registers, reg)
    }

    method ReadRegister8(reg: Register) returns (r: Result<bv8, BusError>)
      ensures r == if readFails then Err(BusError) else Ok(Get(reg))
    {
      r := if readFails then Err(BusError) else Ok(Get(reg));
    }

    method WriteRegister8(reg: Register, value: bv8) returns (err: Option<BusError>)
      requires Valid()
      modifies this
      ensures Valid()
      ensures writes == old(writes) + [(reg, value)]
      ensures err == if writeFails then Some(BusError) else None
      ensures registers == if writeFails then old(registers) else old(registers)[reg := value]
    {
      ApplyOneMore(initial, writes, (reg, value));
      writes := writes + [(reg, value)];
      if writeFails {
        err := Some(BusError);
      } else {
        registers := registers[reg := value];
        err := None;
      }
    }
  }

  class HMC5883L {
    var mgPerDigit: real
    var xOffset: real
    var yOffset: real
    const bus: Bus

    constructor New(bus: Bus)
      ensures this.bus == bus && mgPerDigit == 0.0 && xOffset == 0.0 && yOffset == 0.0
    {
      this.bus := bus;
      mgPerDigit, xOffset, yOffset := 0.0, 0.0, 0.0;
    }

    /** Writes the mode into MODE; a failed read returns its error and writes nothing. */
    method SetMeasurementMode(mode: bv8) returns (err: Option<BusError>)
      requires bus.Valid()
      modifies bus
      ensures bus.Valid()
      ensures bus.readFails ==> err == Some(BusError) && unchanged(bus)
      ensures !bus.readFails ==>
                bus.writes == old(bus.writes) + [(REG_MODE, MeasurementModeByte(old(bus.Get(REG_MODE)), mode))]
                && err == (if bus.writeFails then Some(BusError) else None)
      ensures !bus.readFails ==>
                bus.registers == if bus.writeFails then old(bus.registers)
                                 else old(bus.registers)[REG_MODE := MeasurementModeByte(old(bus.Get(REG_MODE)), mode)]
    {
      var read := bus.ReadRegister8(REG_MODE);
      if read.Err? {
        return Some(read.error);
      }
      err := bus.WriteRegister8(REG_MODE, MeasurementModeByte(read.value, mode));
    }

    /** Writes the data rate into CONFIG_A; a failed read returns its error and writes nothing. */
    method SetDataRate(dataRate: bv8) returns (err: Option<BusError>)
      requires bus.Valid()
      modifies bus
      ensures bus.Valid()
      ensures bus.readFails ==> err == Some(BusError) && unchanged(bus)
      ensures !bus.readFails ==>
                bus.writes == old(bus.writes) + [(REG_CONFIG_A, DataRateByte(old(bus.Get(REG_CONFIG_A)), dataRate))]
                && err == (if bus.writeFails then Some(BusError) else None)
      ensures !bus.readFails ==>
                bus.registers == if bus.writeFails then old(bus.registers)
                                 else old(bus.registers)[REG_CONFIG_A := DataRateByte(old(bus.Get(REG_CONFIG_A)), dataRate)]
    {
      var read := bus.ReadRegister8(REG_CONFIG_A);
      if read.Err? {
        return Some(read.error);
      }
      err := bus.WriteRegister8(REG_CONFIG_A, DataRateByte(read.value, dataRate));
    }

    /** Writes the sample count into CONFIG_A; a failed read returns its error and writes nothing. */
    method SetSamples(samples: bv8) returns (err: Option<BusError>)
      requires bus.Valid()
      modifies bus
      ensures bus.Valid()
      ensures bus.readFails ==> err == Some(BusError) && unchanged(bus)
      ensures !bus.readFails ==>
                bus.writes == old(bus.writes) + [(REG_CONFIG_A, SamplesByte(old(bus.Get(REG_CONFIG_A)), samples))]
                && err == (if bus.writeFails then Some(BusError) else None)
      ensures !bus.readFails ==>
                bus.registers == if bus.writeFails then old(bus.registers)
                                 else old(bus.registers)[REG_CONFIG_A := SamplesByte(old(bus.Get(REG_CONFIG_A)), samples)]
    {
      var read := bus.ReadRegister8(REG_CONFIG_A);
      if read.Err? {
        return Some(read.error);
      }
      err := bus.WriteRegister8(REG_CONFIG_A, SamplesByte(read.value, samples));
    }

    /**
     * Takes the gain of a known range (any other byte keeps the gain) and
     * writes the range to CONFIG_B in every case; a write error is dropped.
     */
    method SetRange(r: bv8)
      requires bus.Valid()
      modifies this`mgPerDigit, bus
      ensures bus.Valid()
      ensures mgPerDigit == if r < 8 then MgPerDigit(r).value else old(mgPerDigit)
      ensures bus.writes == old(bus.writes) + [(REG_CONFIG_B, RangeByte(r))]
      ensures bus.registers == if bus.writeFails then old(bus.registers)
                               else old(bus.registers)[REG_CONFIG_B := RangeByte(r)]
    {
      var gain := MgPerDigit(r);
      if gain.Some? {
        mgPerDigit := gain.value;
      }
      var _ := bus.WriteRegister8(REG_CONFIG_B, RangeByte(r));
    }

    method SetOffset(xo: real, yo: real)
      modifies this`xOffset, this`yOffset
      ensures xOffset == xo && yOffset == yo
    {
      xOffset := xo;
      yOffset := yo;
    }

    /**
     * Checks the identity registers and, on a match, configures the device
     * (range 1.3 Ga, continuous mode, 15 Hz, 1 sample). The configuration
     * is applied to a copy of the driver, so the gain it sets never reaches
     * this driver: only the bus sees the effect.
     */
    method Begin() returns (ok: bool)
      requires bus.Valid()
      modifies bus
      ensures bus.Valid()
      ensures ok <==> !bus.readFails && IsHmc5883lIdentity(old(bus.Get(REG_IDENT_A)), old(bus.Get(REG_IDENT_B)), old(bus.Get(REG_IDENT_C)))
      ensures !ok ==> unchanged(bus)
      ensures ok ==> bus.writes == old(bus.writes) + ConfigurationWrites(old(bus.Get(REG_MODE)), old(bus.Get(REG_CONFIG_A)), bus.writeFails)
      ensures ok ==> bus.registers == if bus.writeFails then old(bus.registers)
                                      else Configured(old(bus.registers))
      ensures unchanged(this)
    {
      var a := bus.ReadRegister8(REG_IDENT_A);
      if a.Err? {
        return false;
      }
      var b := bus.ReadRegister8(REG_IDENT_B);
      if b.Err? {
        return false;
      }
      var c := bus.ReadRegister8(REG_IDENT_C);
      if c.Err? {
        return false;
      }
      if !IsHmc5883lIdentity(a.value, b.value, c.value) {
        return false;
      }

      var copy := new HMC5883L.New(bus);
      copy.mgPerDigit, copy.xOffset, copy.yOffset := mgPerDigit, xOffset, yOffset;
      copy.Configure();
      ok := true;
    }

    /** The configuration steps of `Begin`, on a bus whose reads succeed; their errors are dropped. */
    method Configure()
      requires !bus.readFails && bus.Valid()
      modifies this`mgPerDigit, bus
      ensures bus.Valid()
      ensures bus.writes == old(bus.writes) + ConfigurationWrites(old(bus.Get(REG_MODE)), old(bus.Get(REG_CONFIG_A)), bus.writeFails)
      ensures bus.registers == if bus.writeFails then old(bus.registers) else Configured(old(bus.registers))
      ensures mgPerDigit == 0.92
    {
      ghost var writes := bus.writes;
      ghost var steps := ConfigurationWrites(bus.Get(REG_MODE), bus.Get(REG_CONFIG_A), bus.writeFails);
      SetRange(RANGE_1_3GA);
      assert bus.writes == writes + steps[..1];
      var _ := SetMeasurementMode(CONTINOUS);
      assert bus.writes == writes + steps[..2];
      var _ := SetDataRate(DATARATE_15HZ);
      assert bus.writes == writes + steps[..3];
      var _ := SetSamples(SAMPLES_1);
      assert bus.writes == writes + steps;
      ApplyConcat(bus.initial, writes, steps);
      mgPerDigit := 0.92;
    }
  }
}
