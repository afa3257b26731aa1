/**
 * The TSL2561 driver: a device object that owns a register bus and an
 * optional interrupt port, and exposes gain, timing, thresholds, raw
 * readings and the lux decision through read-modify-write register access.
 */
module Tsl2561 {
  import opened Wrappers
  import opened Registers
  import opened Bus
  import LuxRegions

  /** A GPIO pin number of the board. */
  type CpuPin = nat

  /** What the driver does to the interrupt port it owns. */
  datatype PortEvent = Opened(pin: CpuPin) | Released(pin: CpuPin) | Cleared(pin: CpuPin)

  /** The argument errors the driver raises. */
  datatype ArgumentError = AddressOutOfRange | ConversionCountOutOfRange | InterruptPinRequired

  /** The pin of the port most recently opened in a port log, if any. */
  function LastOpened(log: seq<PortEvent>): (p: Option<CpuPin>)
    ensures p.Some? ==> Opened(p.value) in log
    ensures p.None? ==> forall i :: 0 <= i < |log| ==> !log[i].Opened?
  {
    if log == [] then None
    else if log[|log| - 1].Opened? then Some(log[|log| - 1].pin)
    else LastOpened(log[..|log| - 1])
  }

  /** The pin LastOpened reports was opened at some position, and no port was opened after it. */
  lemma {:induction false} LastOpenedIsMostRecent(log: seq<PortEvent>)
    requires LastOpened(log).Some?
    ensures exists i :: 0 <= i < |log| && log[i] == Opened(LastOpened(log).value)
                        && forall j :: i < j < |log| ==> !log[j].Opened?
  {
    var n := |log| - 1;
    if log[n].Opened? {
      assert log[n] == Opened(LastOpened(log).value);
    } else {
      var prefix := log[..n];
      LastOpenedIsMostRecent(prefix);
      var i :| 0 <= i < |prefix| && prefix[i] == Opened(LastOpened(prefix).value)
               && forall j :: i < j < |prefix| ==> !prefix[j].Opened?;
      assert log[i] == prefix[i];
      assert forall j :: i < j < |log| ==> !log[j].Opened? by {
        forall j | i < j < |log| ensures !log[j].Opened? {
          if j < n { assert log[j] == prefix[j]; }
        }
      }
    }
  }

  /** Events other than Opened do not change which port was opened last. */
  lemma {:induction false} LastOpenedIgnores(log: seq<PortEvent>, more: seq<PortEvent>)
    requires forall i :: 0 <= i < |more| ==> !more[i].Opened?
    ensures LastOpened(log + more) == LastOpened(log)
  {
    if more != [] {
      var m := more[..|more| - 1];
      assert (log + more)[..|log + more| - 1] == log + m;
      assert (log + more)[|log + more| - 1] == more[|more| - 1];
      LastOpenedIgnores(log, m);
    } else {
      assert log + more == log;
    }
  }

  /** Opening a port makes it the one opened last. */
  lemma LastOpenedAfterOpen(log: seq<PortEvent>, pin: CpuPin)
    ensures LastOpened(log + [Opened(pin)]) == Some(pin)
  {
    var extended := log + [Opened(pin)];
    assert extended[|extended| - 1] == Opened(pin);
  }

  /** The whitelist of device addresses: a byte names a device exactly when it is one of the Address codes. */
  function ParseAddress(b: bv8): (r: Option<Address>)
    ensures r.Some? ==> r.value.Code() == b
    ensures r.None? ==> forall a: Address :: a.Code() != b
  {
    if b == Address0.Code() then Some(Address0)
    else if b == Default.Code() then Some(Default)
    else if b == Address1.Code() then Some(Address1)
    else None
  }

  /** The accepted addresses are exactly 0x29, 0x39 and 0x49. */
  lemma AddressWhitelist(b: bv8)
    ensures ParseAddress(b).Some? <==> b == 0x29 || b == 0x39 || b == 0x49
  {
  }

  class TSL2561 {
    const bus: RegisterBus
    var interruptPin: Option<CpuPin>
    var portLog: seq<PortEvent>

    /** The bus holds a sixteen-register file and the bound port is the one opened last. */
    ghost predicate Valid()
      reads this
    {
      bus.Valid() && interruptPin == LastOpened(portLog)
    }

    /** Contents of the register a command byte addresses. */
    ghost function Register(cmd: bv8): bv8
      requires Valid()
      reads this, bus.regs
    {
      bus.regs[Reg(cmd)]
    }

    constructor (address: Address, speed: bv16)
      ensures Valid() && fresh(bus) && fresh(bus.regs)
      ensures bus.address == address.Code() && bus.speed == speed
      ensures bus.sent == [] && interruptPin == None && portLog == []
    {
      bus := new RegisterBus(address.Code(), speed);
      interruptPin := None;
      portLog := [];
    }

    /** Construction from a raw address byte: only the three sensor addresses are accepted, before any bus exists. */
    static method Create(address: bv8, speed: bv16) returns (r: Result<TSL2561, ArgumentError>)
      ensures r.Success? <==> address == 0x29 || address == 0x39 || address == 0x49
      ensures r.Failure? ==> r.error == AddressOutOfRange
      ensures r.Success? ==> fresh(r.value) && fresh(r.value.bus) && fresh(r.value.bus.regs) && r.value.Valid()
      ensures r.Success? ==> r.value.bus.address == address && r.value.bus.speed == speed
      ensures r.Success? ==> r.value.bus.sent == [] && r.value.interruptPin == None
    {
      var parsed := ParseAddress(address);
      if parsed.None? {
        return Failure(AddressOutOfRange);
      }
      var device := new TSL2561(parsed.value, speed);
      r := Success(device);
    }

    /** Both channel counts, Data0 (broadband) then Data1 (infrared), in one bus read. */
    method SensorReading() returns (adc: seq<bv16>)
      requires Valid()
      ensures |adc| == 2
      ensures adc[0] == WordAt(bus.regs[..], DATA0) && adc[1] == WordAt(bus.regs[..], DATA1)
    {
      adc := bus.ReadUShorts(DATA0, 2);
    }

    /** Which branch of the lux approximation the current readings and timing select. */
    method Lux() returns (region: LuxRegions.Region)
      requires Valid()
      ensures region == LuxRegions.Classify(WordAt(bus.regs[..], DATA0) as int,
                                     WordAt(bus.regs[..], DATA1) as int,
                                     TimingOf(Register(TIMING)))
    {
      var adc := SensorReading();
      var data0 := adc[0] as int;
      var data1 := adc[1] as int;
      if data0 == 0xFFFF || data1 == 0xFFFF {
        return LuxRegions.Zero;
      }
      var timing := Timing();
      var milliseconds := LuxRegions.Milliseconds(timing);
      region := LuxRegions.Zero;
      if milliseconds != 0 {
        // The gain read here only chooses the x16 scaling, which does not affect the branch.
        region := LuxRegions.RatioRegion(data0, data1);
      }
      assert region == LuxRegions.Classify(data0, data1, timing);
    }

    method ID() returns (id: bv8)
      requires Valid()
      ensures id == Register(ID_REGISTER)
    {
      id := bus.ReadRegister(ID_REGISTER);
    }

    method SensorGain() returns (gain: Gain)
      requires Valid()
      ensures gain == GainOf(Register(TIMING))
    {
      var data := bus.ReadRegister(TIMING);
      data := data & GAIN_BIT;
      gain := if data == 0 then Low else High;
    }

    /** Sets bit 4 of the Timing register and keeps every other bit and register. */
    method SetSensorGain(value: Gain)
      requires Valid()
      modifies bus, bus.regs
      ensures Valid()
      ensures GainOf(Register(TIMING)) == value
      ensures SameOutside(Register(TIMING), old(Register(TIMING)), GAIN_BIT)
      ensures bus.regs[..] == old(bus.regs[..])[Reg(TIMING) := Register(TIMING)]
      ensures bus.sent == old(bus.sent) + [RegisterWrite(TIMING, Register(TIMING))]
    {
      var data := bus.ReadRegister(TIMING);
      if value == Low {
        data := data & 0xEF;
      } else {
        data := data | 0x10;
      }
      bus.WriteRegister(TIMING, data);
    }

    method Timing() returns (timing: IntegrationTiming)
      requires Valid()
      ensures timing == TimingOf(Register(TIMING))
    {
      var data := bus.ReadRegister(TIMING);
      data := data & INTEG_MASK;
      timing := TimingOf(data);
    }

    /** Replaces bits 0-1 of the Timing register and keeps every other bit and register. */
    method SetTiming(value: IntegrationTiming)
      requires Valid()
      modifies bus, bus.regs
      ensures Valid()
      ensures TimingOf(Register(TIMING)) == value
      ensures SameOutside(Register(TIMING), old(Register(TIMING)), INTEG_MASK)
      ensures bus.regs[..] == old(bus.regs[..])[Reg(TIMING) := Register(TIMING)]
      ensures bus.sent == old(bus.sent) + [RegisterWrite(TIMING, Register(TIMING))]
    {
      var timing := bus.ReadRegister(TIMING);
      var gain := SensorGain();
      if gain == High {
        timing := timing | GAIN_BIT;
      } else {
        timing := timing & !GAIN_BIT;
      }
      timing := timing & !INTEG_MASK;
      timing := timing | (value.Code() & INTEG_MASK);
      bus.WriteRegister(TIMING, timing);
    }

    method ThresholdLow() returns (value: bv16)
      requires Valid()
      ensures value == WordAt(bus.regs[..], THRESHOLD_LOW)
    {
      value := bus.ReadUShort(THRESHOLD_LOW);
    }

    /** Word-mode write of the low threshold; reading it back gives value and the high threshold is untouched. */
    method SetThresholdLow(value: bv16)
      requires Valid()
      modifies bus, bus.regs
      ensures Valid()
      ensures WordAt(bus.regs[..], THRESHOLD_LOW) == value
      ensures WordAt(bus.regs[..], THRESHOLD_HIGH) == old(WordAt(bus.regs[..], THRESHOLD_HIGH))
      ensures bus.regs[..] == old(bus.regs[..])[Reg(THRESHOLD_LOW) := LowByte(value)]
                                               [Reg(THRESHOLD_LOW) + 1 := HighByte(value)]
      ensures bus.sent == old(bus.sent) + [WordWrite(THRESHOLD_LOW + WORD_MODE_BIT, value)]
    {
      bus.WriteUShort(THRESHOLD_LOW + WORD_MODE_BIT, value);
    }

    method ThresholdHigh() returns (value: bv16)
      requires Valid()
      ensures value == WordAt(bus.regs[..], THRESHOLD_HIGH)
    {
      value := bus.ReadUShort(THRESHOLD_HIGH);
    }

    /** Word-mode write of the high threshold; reading it back gives value and the low threshold is untouched. */
    method SetThresholdHigh(value: bv16)
      requires Valid()
      modifies bus, bus.regs
      ensures Valid()
      ensures WordAt(bus.regs[..], THRESHOLD_HIGH) == value
      ensures WordAt(bus.regs[..], THRESHOLD_LOW) == old(WordAt(bus.regs[..], THRESHOLD_LOW))
      ensures bus.regs[..] == old(bus.regs[..])[Reg(THRESHOLD_HIGH) := LowByte(value)]
                                               [Reg(THRESHOLD_HIGH) + 1 := HighByte(value)]
      ensures bus.sent == old(bus.sent) + [WordWrite(THRESHOLD_HIGH + WORD_MODE_BIT, value)]
    {
      bus.WriteUShort(THRESHOLD_HIGH + WORD_MODE_BIT, value);
    }

    method TurnOff()
      requires Valid()
      modifies bus, bus.regs
      ensures Valid()
      ensures bus.regs[..] == old(bus.regs[..])[Reg(CONTROL) := POWER_OFF]
      ensures bus.sent == old(bus.sent) + [RegisterWrite(CONTROL, POWER_OFF)]
    {
      bus.WriteRegister(CONTROL, POWER_OFF);
    }

    method TurnOn()
      requires Valid()
      modifies bus, bus.regs
      ensures Valid()
      ensures bus.regs[..] == old(bus.regs[..])[Reg(CONTROL) := POWER_ON]
      ensures bus.sent == old(bus.sent) + [RegisterWrite(CONTROL, POWER_ON)]
    {
      bus.WriteRegister(CONTROL, POWER_ON);
    }

    /** Sends the clear-interrupt command and clears the bound port, if any. */
    method ClearInterrupt()
      requires Valid()
      modifies bus, this
      ensures Valid()
      ensures interruptPin == old(interruptPin)
      ensures portLog == old(portLog) + (if interruptPin.Some? then [Cleared(interruptPin.value)] else [])
      ensures bus.sent == old(bus.sent) + [CommandByte(CLEAR_INTERRUPT_BIT)]
    {
      bus.WriteByte(CLEAR_INTERRUPT_BIT);
      if interruptPin.Some? {
        LastOpenedIgnores(portLog, [Cleared(interruptPin.value)]);
        portLog := portLog + [Cleared(interruptPin.value)];
      }
    }

    /**
     * As written: selects Manual timing, then ORs in 0xF7. The manual bit
     * keeps its old value and every other bit, the gain bit included, is set.
     */
    method ManualStart()
      requires Valid()
      modifies bus, bus.regs
      ensures Valid()
      ensures TimingOf(Register(TIMING)) == Manual
      ensures Register(TIMING) & MANUAL_BIT == old(Register(TIMING)) & MANUAL_BIT
      ensures Register(TIMING) | MANUAL_BIT == 0xFF
      ensures GainOf(Register(TIMING)) == High
      ensures bus.regs[..] == old(bus.regs[..])[Reg(TIMING) := Register(TIMING)]
      ensures bus.sent == old(bus.sent)
                          + [RegisterWrite(TIMING, old(Register(TIMING)) | INTEG_MASK),
                             RegisterWrite(TIMING, Register(TIMING))]
    {
      var timing := bus.ReadRegister(TIMING);
      timing := timing | 0x03;
      bus.WriteRegister(TIMING, timing);
      timing := timing | 0xF7;
      bus.WriteRegister(TIMING, timing);
    }

    /** ManualStart with the mask evidently intended: sets the manual bit and keeps the gain. */
    method ManualStartCorrected()
      requires Valid()
      modifies bus, bus.regs
      ensures Valid()
      ensures ManualStarted(Register(TIMING))
      ensures Register(TIMING) == IntendedManualStart(old(Register(TIMING)))
      ensures bus.regs[..] == old(bus.regs[..])[Reg(TIMING) := Register(TIMING)]
      ensures bus.sent == old(bus.sent)
                          + [RegisterWrite(TIMING, old(Register(TIMING)) | INTEG_MASK),
                             RegisterWrite(TIMING, Register(TIMING))]
    {
      var timing := bus.ReadRegister(TIMING);
      timing := timing | 0x03;
      bus.WriteRegister(TIMING, timing);
      timing := timing | MANUAL_BIT;
      bus.WriteRegister(TIMING, timing);
    }

    /** Clears the manual bit (bit 3) of the Timing register and keeps every other bit. */
    method ManualStop()
      requires Valid()
      modifies bus, bus.regs
      ensures Valid()
      ensures Register(TIMING) & MANUAL_BIT == 0
      ensures SameOutside(Register(TIMING), old(Register(TIMING)), MANUAL_BIT)
      ensures bus.regs[..] == old(bus.regs[..])[Reg(TIMING) := Register(TIMING)]
      ensures bus.sent == old(bus.sent) + [RegisterWrite(TIMING, Register(TIMING))]
    {
      var timing := bus.ReadRegister(TIMING);
      timing := timing & 0xF7;
      bus.WriteRegister(TIMING, timing);
    }

    /** Releases the port bound so far, if any, and binds a new one on `pin`. */
    method AttachInterruptPin(pin: CpuPin)
      requires Valid()
      modifies this
      ensures Valid()
      ensures interruptPin == Some(pin)
      ensures portLog == old(portLog)
                         + (if old(interruptPin).Some? then [Released(old(interruptPin).value)] else [])
                         + [Opened(pin)]
    {
      if interruptPin.Some? {
        LastOpenedIgnores(portLog, [Released(interruptPin.value)]);
        portLog := portLog + [Released(interruptPin.value)];
      }
      interruptPin := Some(pin);
      LastOpenedAfterOpen(portLog, pin);
      portLog := portLog + [Opened(pin)];
    }

    /**
     * Validates the arguments before any bus transfer, binds the new port
     * (releasing the old one) when a pin is given, clears a pending
     * interrupt and then packs mode and count into Interrupt Control.
     */
    method SetInterruptMode(mode: InterruptMode, conversionCount: bv8, pin: Option<CpuPin>)
      returns (r: Outcome<ArgumentError>)
      requires Valid()
      modifies bus, bus.regs, this
      ensures Valid()
      ensures r.Fail? <==> conversionCount > 15 || (pin.None? && old(interruptPin).None?)
      ensures r.Fail? ==> r.error == if conversionCount > 15 then ConversionCountOutOfRange
                                     else InterruptPinRequired
      ensures r.Fail? ==> interruptPin == old(interruptPin) && portLog == old(portLog)
      ensures r.Fail? ==> bus.regs[..] == old(bus.regs[..]) && bus.sent == old(bus.sent)
      ensures r.Pass? ==> interruptPin == if pin.Some? then pin else old(interruptPin)
      ensures r.Pass? ==>
        && interruptPin.Some?
        && portLog == old(portLog)
                      + (if pin.Some? && old(interruptPin).Some? then [Released(old(interruptPin).value)] else [])
                      + (if pin.Some? then [Opened(pin.value)] else [])
                      + [Cleared(interruptPin.value)]
      ensures r.Pass? ==>
        var control := Register(INTERRUPT_CONTROL);
        && control >> 4 == mode.Code()
        && control & 0x0F == conversionCount
        && bus.regs[..] == old(bus.regs[..])[Reg(INTERRUPT_CONTROL) := control]
        && bus.sent == old(bus.sent) + [CommandByte(CLEAR_INTERRUPT_BIT), RegisterWrite(INTERRUPT_CONTROL, control)]
    {
      if conversionCount > 15 {
        return Fail(ConversionCountOutOfRange);
      }
      if pin.Some? {
        AttachInterruptPin(pin.value);
      } else if interruptPin.None? {
        return Fail(InterruptPinRequired);
      }
      var registerValue := mode.Code();
      registerValue := registerValue << 4;
      registerValue := registerValue | conversionCount;
      InterruptControlFields(mode, conversionCount);
      assert Valid();
      ghost var regsBefore, sentBefore, logBefore := bus.regs[..], bus.sent, portLog;
      ClearInterrupt();
      assert portLog == logBefore + [Cleared(interruptPin.value)];
      assert bus.regs[..] == regsBefore;
      bus.WriteRegister(INTERRUPT_CONTROL, registerValue);
      assert Register(INTERRUPT_CONTROL) == registerValue;
      assert bus.sent == sentBefore + [CommandByte(CLEAR_INTERRUPT_BIT), RegisterWrite(INTERRUPT_CONTROL, registerValue)];
      r := Pass;
    }

    /** Releases the bound port, if any; the reference to it is kept. */
    method Dispose()
      requires Valid()
      modifies this
      ensures Valid()
      ensures interruptPin == old(interruptPin)
      ensures portLog == old(portLog) + (if interruptPin.Some? then [Released(interruptPin.value)] else [])
    {
      if interruptPin.Some? {
        LastOpenedIgnores(portLog, [Released(interruptPin.value)]);
        portLog := portLog + [Released(interruptPin.value)];
      }
    }
  }

  /** Stopping and then starting manual integration, as written, leaves integration stopped. */
  method StopThenStartLeavesIntegrationStopped(device: TSL2561)
    requires device.Valid()
    modifies device.bus, device.bus.regs
    ensures device.Valid()
    ensures !ManualStarted(device.Register(TIMING))
    ensures GainOf(device.Register(TIMING)) == High
  {
    device.ManualStop();
    device.ManualStart();
  }
}
