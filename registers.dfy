/**
 * Register map, command-byte flags and the bit fields of the TSL2561
 * light-to-digital converter, together with the decoders the driver's
 * getters use and the facts that keep its packed fields apart.
 */
module Registers {

  // Flags of the Command register.
  const COMMAND_BIT: bv8 := 0x80
  const CLEAR_INTERRUPT_BIT: bv8 := 0xC0
  const WORD_MODE_BIT: bv8 := 0x20

  // Command addresses of the registers: the register number with COMMAND_BIT added.
  const CONTROL: bv8 := 0x80
  const TIMING: bv8 := 0x81
  const THRESHOLD_LOW: bv8 := 0x82
  const THRESHOLD_HIGH: bv8 := 0x84
  const INTERRUPT_CONTROL: bv8 := 0x86
  const ID_REGISTER: bv8 := 0x8A
  const DATA0: bv8 := 0x8C
  const DATA1: bv8 := 0x8E

  // Values of the power bits in the Control register.
  const POWER_OFF: bv8 := 0x00
  const POWER_ON: bv8 := 0x03

  // Fields of the Timing register.
  const INTEG_MASK: bv8 := 0x03  // bits 0-1: integration timing
  const MANUAL_BIT: bv8 := 0x08  // bit 3: manual integration running
  const GAIN_BIT: bv8 := 0x10    // bit 4: gain

  /** Sensor gain: Low is x1, High is x16, held in bit 4 of the Timing register. */
  datatype Gain = Low | High {
    function Bit(): (b: bv8)
      ensures b & GAIN_BIT == b
      ensures b == 0 <==> this == Low
    {
      match this
      case Low => 0
      case High => GAIN_BIT
    }
  }

  /** Integration timing, encoded in bits 0-1 of the Timing register. */
  datatype IntegrationTiming = Ms13 | Ms101 | Ms402 | Manual {
    function Code(): (c: bv8)
      ensures c & INTEG_MASK == c
    {
      match this
      case Ms13 => 0
      case Ms101 => 1
      case Ms402 => 2
      case Manual => 3
    }
  }

  /** Interrupt enable, encoded in bits 4-5 of the Interrupt Control register. */
  datatype InterruptMode = Disable | Enable {
    /** The code fits the two-bit field it is shifted into. */
    function Code(): (c: bv8)
      ensures c & 0x03 == c
    {
      match this
      case Disable => 0
      case Enable => 1
    }
  }

  /** The three I2C addresses the sensor can be strapped to. */
  datatype Address = Default | Address0 | Address1 {
    /** Each code is a seven-bit I2C address. */
    function Code(): (c: bv8)
      ensures c & 0x7F == c
    {
      match this
      case Default => 0x39
      case Address0 => 0x29
      case Address1 => 0x49
    }
  }

  /** Every register address is its register number with the command bit added. */
  lemma RegistersCarryCommandBit()
    ensures CONTROL == COMMAND_BIT | 0x0 && TIMING == COMMAND_BIT | 0x1
    ensures THRESHOLD_LOW == COMMAND_BIT | 0x2 && THRESHOLD_HIGH == COMMAND_BIT | 0x4
    ensures INTERRUPT_CONTROL == COMMAND_BIT | 0x6 && ID_REGISTER == COMMAND_BIT | 0xA
    ensures DATA0 == COMMAND_BIT | 0xC && DATA1 == COMMAND_BIT | 0xE
  {
  }

  /** a and b differ at most in the bits of mask. */
  predicate SameOutside(a: bv8, b: bv8, mask: bv8) {
    a & !mask == b & !mask
  }

  /** The gain held in a Timing register byte (bit 4). */
  function GainOf(t: bv8): (r: Gain)
    ensures r.Bit() == t & GAIN_BIT
  {
    if t & GAIN_BIT == 0 then Low else High
  }

  /** The integration timing held in a Timing register byte (bits 0-1). */
  function TimingOf(t: bv8): (r: IntegrationTiming)
    ensures r.Code() == t & INTEG_MASK
  {
    var bits := t & INTEG_MASK;
    if bits == 0 then Ms13
    else if bits == 1 then Ms101
    else if bits == 2 then Ms402
    else Manual
  }

  /** Manual integration is selected and running. */
  predicate ManualStarted(t: bv8) {
    TimingOf(t) == Manual && t & MANUAL_BIT != 0
  }

  /** Encoding a timing and decoding it again gives it back. */
  lemma TimingRoundTrip(v: IntegrationTiming)
    ensures TimingOf(v.Code()) == v
  {
  }

  /** Changing only the gain bit leaves the integration timing as it was. */
  lemma GainBitKeepsTiming(a: bv8, b: bv8)
    requires SameOutside(a, b, GAIN_BIT)
    ensures TimingOf(a) == TimingOf(b)
  {
  }

  /** Changing only the timing bits leaves the gain as it was. */
  lemma TimingBitsKeepGain(a: bv8, b: bv8)
    requires SameOutside(a, b, INTEG_MASK)
    ensures GainOf(a) == GainOf(b)
  {
  }

  /**
   * Interrupt Control packs the mode into the upper nibble and the
   * conversion count into the lower one; both can be read back.
   */
  lemma InterruptControlFields(mode: InterruptMode, count: bv8)
    requires count <= 15
    ensures ((mode.Code() << 4) | count) >> 4 == mode.Code()
    ensures ((mode.Code() << 4) | count) & 0x0F == count
  {
  }

  /**
   * What ManualStart evidently means to write: select Manual timing and set
   * the manual-start bit, keeping every other bit.
   */
  function IntendedManualStart(t: bv8): (r: bv8)
    ensures ManualStarted(r)
    ensures SameOutside(r, t, INTEG_MASK | MANUAL_BIT)
    ensures GainOf(r) == GainOf(t)
  {
    t | INTEG_MASK | MANUAL_BIT
  }
}
