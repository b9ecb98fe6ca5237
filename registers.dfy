/** The register map of the MMA8452 and the byte-level formulas the driver
    applies to register values: the active bit, the output-rate field, the
    scale-range encoding and the decoding of 12-bit samples. */
module Registers {
  import opened Bus

  // Register addresses and the device's 7-bit bus address.
  const OutXMsb: Byte := 0x01
  const ChipIdReg: Byte := 0x0D
  const XyzDataCfg: Byte := 0x0E
  const I2cAddress: Byte := 0x1D
  const CtrlReg1: Byte := 0x2A

  // Defaults and table sizes.
  const NumOutputRates: nat := 8
  const DefaultOutputRate: real := 12.5
  const NumScaleRanges: nat := 3
  const DefaultScaleRange: Byte := 2

  /** The address+direction byte for a write (`0x0 | I2C_ADDRESS << 1`). */
  const DeviceWrite: Byte := 0x0 | (I2cAddress << 1)
  /** The address+direction byte for a read (`0x1 | I2C_ADDRESS << 1`). */
  const DeviceRead: Byte := 0x1 | (I2cAddress << 1)

  lemma DeviceAddressBytes()
    ensures DeviceWrite == 0x3A && DeviceRead == 0x3B
    ensures DeviceWrite >> 1 == I2cAddress && DeviceRead >> 1 == I2cAddress
    ensures DeviceWrite & 0x01 == 0 && DeviceRead & 0x01 == 1
  {
  }

  /** The address byte `write_register` puts on the bus: the register
      address shifted left, with the top bit lost as in Rust's `u8 << 1`. */
  function RegisterWriteAddress(register: Byte): (address: Byte)
    ensures address & 0x01 == 0
    ensures address >> 1 == register & 0x7F
  {
    0x0 | (register << 1)
  }

  /** That address byte reaches the accelerometer only for two register
      addresses, neither of which is a register the driver writes. */
  lemma RegisterWriteAddressHitsDevice(register: Byte)
    ensures RegisterWriteAddress(register) == DeviceWrite <==> register == I2cAddress || register == I2cAddress | 0x80
    ensures RegisterWriteAddress(CtrlReg1) == 0x54 && RegisterWriteAddress(XyzDataCfg) == 0x1C
  {
  }

  /** CTRL_REG1 with the active bit set (`r | 0x01`). */
  function ActiveByte(r: Byte): (v: Byte)
    ensures v & 0x01 == 0x01
    ensures v & 0xFE == r & 0xFE
  {
    r | 0x01
  }

  /** CTRL_REG1 with the active bit cleared (`r & !0x01`). */
  function StandbyByte(r: Byte): (v: Byte)
    ensures v & 0x01 == 0x00
    ensures v & 0xFE == r & 0xFE
  {
    r & !(0x01 as Byte)
  }

  /** The byte a mode switch writes back, for the requested mode. */
  function ModeByte(active: bool, r: Byte): (v: Byte)
  {
    if active then ActiveByte(r) else StandbyByte(r)
  }

  /** Switching into a mode twice writes the same byte as switching once, and
      switching back and forth only ever touches bit 0. */
  lemma ModeByteIdempotent(active: bool, r: Byte)
    ensures ModeByte(active, ModeByte(active, r)) == ModeByte(active, r)
    ensures ModeByte(active, ModeByte(!active, r)) == ModeByte(active, r)
    ensures ModeByte(active, r) == r <==> (r & 0x01 == 0x01) == active
  {
  }

  /** The rate mask of `set_output_rate`: 0b11000111 clears bits 3 to 5. */
  const RateMask: Byte := 199

  /** CTRL_REG1 after inserting rate index `idx`, with the source's guard that
      skips the OR for index 0. */
  function RateByte(current: Byte, idx: nat): (v: Byte)
    requires idx < NumOutputRates
    ensures (v >> 3) & 0x07 == idx as Byte
    ensures v & 0xC7 == current & 0xC7
  {
    var cleared := current & RateMask;
    if idx != 0 then cleared | ((idx as Byte) << 3) else cleared
  }

  /** The `idx != 0` guard makes no difference to the byte written. */
  lemma RateByteGuardIrrelevant(current: Byte, idx: nat)
    requires idx < NumOutputRates
    ensures RateByte(current, idx) == (current & 0xC7) | ((idx as Byte) << 3)
  {
  }

  /** The range stored by `set_scale_range`: capped at 8, otherwise verbatim. */
  function ClampScale(s: Byte): (c: Byte)
    ensures c <= 8
    ensures c == s || (s > 8 && c == 8)
  {
    if s > 8 then 8 else s
  }

  /** The XYZ_DATA_CFG value written by `set_scale_range` (clamped range `>> 2`). */
  function ScaleEncoding(s: Byte): (code: Byte)
    ensures code <= 2
    ensures code == 0 <==> s < 4
    ensures code == 1 <==> 4 <= s < 8
    ensures code == 2 <==> s >= 8
  {
    ClampScale(s) >> 2
  }

  lemma ScaleEncodingExamples()
    ensures ScaleEncoding(2) == 0 && ScaleEncoding(4) == 1 && ScaleEncoding(8) == 2
    ensures ScaleEncoding(9) == 2 && ScaleEncoding(0) == 0 && ScaleEncoding(3) == 0 && ScaleEncoding(5) == 1
  {
  }

  /** A Rust `u16`. */
  type Word = x: int | 0 <= x < 0x1_0000

  /** The 12-bit two's-complement sample held left-justified in an MSB and LSB
      register pair, as a mathematical integer: the sign bit is bit 7 of the MSB. */
  function Signed12(msb: Byte, lsb: Byte): int
  {
    var high := if msb > 0x7F then msb as int - 0x100 else msb as int;
    high * 16 + (lsb as int) / 16
  }

  function Abs(x: int): int
  {
    if x < 0 then -x else x
  }

  /** One axis of `get_acceleration`: `((msb << 8) | lsb) >> 4` in `u16`, replaced
      by `1 + 0xFFF - v` when the MSB's top bit is set. The operands are below
      `0x1_0000` and `v <= 0xFFF`, so the `u16` arithmetic is exact and is written
      here on integers. */
  function DecodeAxis(msb: Byte, lsb: Byte): (count: Word)
    ensures msb <= 0x7F ==> count <= 0x7FF
    ensures msb > 0x7F ==> 1 <= count <= 0x800
  {
    var g := ((msb as int) * 0x100 + (lsb as int)) / 16;
    if msb > 0x7F then 1 + 0xFFF - g else g
  }

  /** The decoded count is the magnitude of the two's-complement sample: the
      `0x1000 - v` branch negates a negative sample, and the sign is not kept. */
  lemma DecodeAxisIsMagnitude(msb: Byte, lsb: Byte)
    ensures DecodeAxis(msb, lsb) as int == Abs(Signed12(msb, lsb))
    ensures Signed12(msb, lsb) < 0 <==> msb > 0x7F
  {
    var m, l := msb as int, lsb as int;
    SignBit(msb);
    JoinNibbles(m, l);
  }

  /** Bit 7 of a byte is set exactly when its value is at least 0x80. */
  lemma SignBit(b: Byte)
    ensures b > 0x7F <==> b as int >= 0x80
    ensures 0 <= b as int < 0x100
  {
  }

  /** Shifting a byte pair right by four bits keeps the MSB and the high nibble of the LSB. */
  lemma JoinNibbles(m: int, l: int)
    requires 0 <= l < 0x100
    ensures (m * 0x100 + l) / 16 == m * 16 + l / 16
  {
    assert m * 0x100 + l == (m * 16 + l / 16) * 16 + l % 16;
  }

  /** Two samples of opposite sign decode to the same count. */
  lemma DecodeAxisLosesSign()
    ensures Signed12(0x00, 0x50) == 5 && Signed12(0xFF, 0xB0) == -5
    ensures DecodeAxis(0x00, 0x50) == DecodeAxis(0xFF, 0xB0) == 5
  {
  }

  lemma DecodeAxisExamples()
    ensures DecodeAxis(0x7F, 0xF0) == 0x7FF
    ensures DecodeAxis(0x80, 0x00) == 0x800
    ensures DecodeAxis(0xFF, 0xF0) == 1
  {
  }
}
