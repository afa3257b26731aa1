# TSL2561 light-sensor driver, modelled in Dafny

This project models the TSL2561 light-to-digital converter driver of
Netduino.Foundation. The driver owns an I2C register bus and, optionally, a
GPIO interrupt port. It exposes the sensor through register accesses:

- gain and integration timing, packed into the Timing register and updated
  by read-modify-write;
- the low and high interrupt thresholds, as little-endian 16-bit words
  written in word mode;
- the raw channel readings and the branch structure of the lux computation;
- power on/off, manual integration start/stop, and interrupt configuration
  with its argument checks.

Files:

- `wrappers.dfy`: `Option`, `Result` and `Outcome`, which stand in for
  the driver's exceptions.
- `registers.dfy` (module `Registers`): the register map, the command-byte
  flags (CMD 0x80, CLEAR 0xC0, WORD 0x20) and the enums. It also holds the
  decoders of the Timing register fields and the facts that keep gain and
  timing independent.
- `bus.dfy` (module `Bus`): the communication bus as an abstract file of
  sixteen byte registers. A command byte selects a register by its low four
  bits. Words are little-endian: the low byte is at the addressed register
  and the high byte at the next one. Every write is appended to the log
  `sent`, so contracts can state the order of transfers.
- `lux.dfy` (module `LuxRegions`): the lux decision. It decides whether the
  result is 0.0 and which of the four formulas applies. The ratio tests are
  cross-multiplied in integers.
- `tsl2561.dfy` (module `Tsl2561`): the driver class `TSL2561`. It holds
  the bus, the optional bound interrupt pin and a log of what the driver did
  to its interrupt port (opened, released, cleared). Its invariant says that
  the bound pin is the pin most recently opened.

Bytes are `bv8` and ushorts are `bv16`. The C# `sbyte` arithmetic in the
Timing setter is the same bit manipulation on `bv8`. Exceptions become a
`Result` (construction) or an `Outcome` (`SetInterruptMode`). The parameters
the source defaults (address 0x39, speed 100) are passed explicitly.

Two behaviours of the code that a reader might not expect are kept by the
model:

- A second `Dispose` releases the port again, because `_interruptPin` is
  never set to null.
- `ManualStart` ORs in `0xF7`. See Findings.

The lux formulas are not clamped at 0, and they need not be. In exact
arithmetic each formula is positive over its own ratio range. The narrowest
margin is in the last branch: 0.00146 - 0.00112 x 1.30 = 0.000004 per count
of data0. The formulas themselves are not part of this model.

Why cross-multiplication is exact: for counts of at most 65535 and data0 > 0,
the double ratio `d1/d0` is on the same side of each double constant 0.5,
0.61, 0.80 and 1.30 as the exact rational is. Two distinct rationals with
these denominators differ by far more than the rounding error of a double.
When the ratio equals a threshold exactly, both sides round to the same
double. When data0 is 0, the double ratio is +infinity or NaN and every
`<` test is false. `RatioRegion(0, _)` is Zero for the same reason. This
argument is about IEEE doubles and is not part of the Dafny proof. The
proof relates the integer tests to the real-valued ratio.

## Model

| member | source | states |
|---|---|---|
| Registers.IntegrationTiming.Code | Source/Additional_Peripheral_Libraries/Netduino.Foundation.Sensors.Light.TSL2561/TSL2561.cs:55 | the timing code fits in bits 0-1 |
| Registers.Gain.Bit | Source/Additional_Peripheral_Libraries/Netduino.Foundation.Sensors.Light.TSL2561/TSL2561.cs:238-242 | the gain occupies bit 4 of Timing alone, which is clear exactly for Low |
| Registers.InterruptMode.Code | Source/Additional_Peripheral_Libraries/Netduino.Foundation.Sensors.Light.TSL2561/TSL2561.cs:95 | the interrupt-mode code fits in bits 0-1 |
| Registers.Address.Code | Source/Additional_Peripheral_Libraries/Netduino.Foundation.Sensors.Light.TSL2561/TSL2561.cs:45 | every sensor address is a seven-bit I2C address |
| Registers.RegistersCarryCommandBit | Source/Additional_Peripheral_Libraries/Netduino.Foundation.Sensors.Light.TSL2561/TSL2561.cs:73-87 | every register location is its register number with the command bit 0x80 added |
| Registers.GainOf | Source/Additional_Peripheral_Libraries/Netduino.Foundation.Sensors.Light.TSL2561/TSL2561.cs:230-231 | the gain read from a Timing byte is the one whose bit equals the byte's bit 4 |
| Registers.TimingOf | Source/Additional_Peripheral_Libraries/Netduino.Foundation.Sensors.Light.TSL2561/TSL2561.cs:255-257 | the timing read from a Timing byte is the one whose code is the byte's bits 0-1 |
| Registers.TimingRoundTrip | Source/Additional_Peripheral_Libraries/Netduino.Foundation.Sensors.Light.TSL2561/TSL2561.cs:55 | encoding a timing and decoding it gives it back |
| Registers.GainBitKeepsTiming | Source/Additional_Peripheral_Libraries/Netduino.Foundation.Sensors.Light.TSL2561/TSL2561.cs:233-245 | two Timing bytes that differ only in the gain bit hold the same timing |
| Registers.TimingBitsKeepGain | Source/Additional_Peripheral_Libraries/Netduino.Foundation.Sensors.Light.TSL2561/TSL2561.cs:259-273 | two Timing bytes that differ only in bits 0-1 hold the same gain |
| Registers.InterruptControlFields | Source/Additional_Peripheral_Libraries/Netduino.Foundation.Sensors.Light.TSL2561/TSL2561.cs:498-507 | packing mode << 4 with a count of at most 15 gives back mode from the upper nibble and count from the lower one |
| Registers.IntendedManualStart | Source/Additional_Peripheral_Libraries/Netduino.Foundation.Sensors.Light.TSL2561/TSL2561.cs:446 | the evidently intended ManualStart byte selects Manual, sets the manual bit and keeps the gain and every other bit |
| Bus.Reg | Source/Additional_Peripheral_Libraries/Netduino.Foundation.Sensors.Light.TSL2561/TSL2561.cs:73-76 | a command byte addresses one of sixteen registers, given by its low four bits |
| Bus.RegNext | Source/Additional_Peripheral_Libraries/Netduino.Foundation.Sensors.Light.TSL2561/TSL2561.cs:73-76 | advancing a command byte by one moves to the next register, wrapping at sixteen |
| Bus.RegSkip | Source/Additional_Peripheral_Libraries/Netduino.Foundation.Sensors.Light.TSL2561/TSL2561.cs:73-76 | advancing a command byte by two moves two registers on, wrapping at sixteen |
| Bus.Word | Source/Additional_Peripheral_Libraries/Netduino.Foundation.Sensors.Light.TSL2561/TSL2561.cs:289 | the little-endian word of two bytes splits back into the same low and high byte |
| Bus.WordAt | Source/Additional_Peripheral_Libraries/Netduino.Foundation.Sensors.Light.TSL2561/TSL2561.cs:289 | the word read at a command byte has its low byte in the addressed register and its high byte in the next one |
| Bus.WordRoundTrip | Source/Additional_Peripheral_Libraries/Netduino.Foundation.Sensors.Light.TSL2561/TSL2561.cs:293 | splitting a word into bytes and joining them gives the word back |
| Bus.Words | Source/Additional_Peripheral_Libraries/Netduino.Foundation.Sensors.Light.TSL2561/TSL2561.cs:121 | a multi-word read returns count words; word i is the little-endian pair at registers cmd+2i and cmd+2i+1 (modulo sixteen) |
| Bus.RegisterBus.constructor | Source/Additional_Peripheral_Libraries/Netduino.Foundation.Sensors.Light.TSL2561/TSL2561.cs:375 | a fresh bus with the given address and speed, a sixteen-register file and nothing sent |
| Bus.RegisterBus.ReadRegister | Source/Additional_Peripheral_Libraries/Netduino.Foundation.Sensors.Light.TSL2561/TSL2561.cs:230 | reads the register the command byte addresses |
| Bus.RegisterBus.WriteRegister | Source/Additional_Peripheral_Libraries/Netduino.Foundation.Sensors.Light.TSL2561/TSL2561.cs:244 | changes exactly the addressed register and logs the write |
| Bus.RegisterBus.WriteByte | Source/Additional_Peripheral_Libraries/Netduino.Foundation.Sensors.Light.TSL2561/TSL2561.cs:431 | sends a bare command byte: no register changes and the byte is logged |
| Bus.RegisterBus.ReadUShort | Source/Additional_Peripheral_Libraries/Netduino.Foundation.Sensors.Light.TSL2561/TSL2561.cs:289 | reads the little-endian word at the addressed register and the next one |
| Bus.RegisterBus.ReadUShorts | Source/Additional_Peripheral_Libraries/Netduino.Foundation.Sensors.Light.TSL2561/TSL2561.cs:121 | reads count consecutive little-endian words from the addressed register on, without changing any register |
| Bus.RegisterBus.WriteUShort | Source/Additional_Peripheral_Libraries/Netduino.Foundation.Sensors.Light.TSL2561/TSL2561.cs:293 | changes exactly the two registers of the word, low byte first, and logs one word write |
| LuxRegions.Milliseconds | Source/Additional_Peripheral_Libraries/Netduino.Foundation.Sensors.Light.TSL2561/TSL2561.cs:143-158 | the nominal integration time is 0 exactly for Manual and at most 402 |
| LuxRegions.RatioRegion | Source/Additional_Peripheral_Libraries/Netduino.Foundation.Sensors.Light.TSL2561/TSL2561.cs:169-193 | for any data0, the region is Zero exactly when 100*data1 >= 130*data0, that is when no branch of the ratio chain applies |
| LuxRegions.Classify | Source/Additional_Peripheral_Libraries/Netduino.Foundation.Sensors.Light.TSL2561/TSL2561.cs:132-195 | the result is 0.0 exactly when a channel is saturated (0xFFFF), the timing is Manual, data0 is 0 or data1/data0 >= 1.30 |
| LuxRegions.QuotientBelow | Source/Additional_Peripheral_Libraries/Netduino.Foundation.Sensors.Light.TSL2561/TSL2561.cs:141 | for data0 > 0, data1/data0 < k/100 holds exactly when 100*data1 < k*data0 |
| LuxRegions.CrossMultiplicationExact | Source/Additional_Peripheral_Libraries/Netduino.Foundation.Sensors.Light.TSL2561/TSL2561.cs:169-193 | for data0 > 0 the integer tests pick the same branch as the real ratio against 0.50, 0.61, 0.80 and 1.30 |
| LuxRegions.ClassifyFollowsRatio | Source/Additional_Peripheral_Libraries/Netduino.Foundation.Sensors.Light.TSL2561/TSL2561.cs:132-195 | with both channels unsaturated, a timing other than Manual and data0 > 0, the branch taken is the one the real ratio data1/data0 selects against 0.50, 0.61, 0.80 and 1.30 |
| LuxRegions.NoBroadbandIsZero | Source/Additional_Peripheral_Libraries/Netduino.Foundation.Sensors.Light.TSL2561/TSL2561.cs:141 | with data0 = 0 every ratio test fails and the region is Zero |
| LuxRegions.BoundariesGoUp | Source/Additional_Peripheral_Libraries/Netduino.Foundation.Sensors.Light.TSL2561/TSL2561.cs:169-193 | a ratio exactly at 0.50, 0.61, 0.80 or 1.30 selects the branch above |
| LuxRegions.RegionMonotone | Source/Additional_Peripheral_Libraries/Netduino.Foundation.Sensors.Light.TSL2561/TSL2561.cs:169-193 | the branch never moves down as data1 grows against a fixed data0 |
| Tsl2561.LastOpened | Source/Additional_Peripheral_Libraries/Netduino.Foundation.Sensors.Light.TSL2561/TSL2561.cs:481-489 | the pin reported as bound was opened in the port log, and no pin is bound only if none was ever opened |
| Tsl2561.LastOpenedIsMostRecent | Source/Additional_Peripheral_Libraries/Netduino.Foundation.Sensors.Light.TSL2561/TSL2561.cs:481-489 | the bound pin is the one of an Opened event after which no port was opened |
| Tsl2561.LastOpenedAfterOpen | Source/Additional_Peripheral_Libraries/Netduino.Foundation.Sensors.Light.TSL2561/TSL2561.cs:487 | after a port is opened on a pin, that pin is the bound one |
| Tsl2561.LastOpenedIgnores | Source/Additional_Peripheral_Libraries/Netduino.Foundation.Sensors.Light.TSL2561/TSL2561.cs:386-392 | releasing or clearing a port does not change which pin is bound |
| Tsl2561.ParseAddress | Source/Additional_Peripheral_Libraries/Netduino.Foundation.Sensors.Light.TSL2561/TSL2561.cs:371-374 | an address byte is accepted exactly when it is the code of one of the three Addresses values |
| Tsl2561.AddressWhitelist | Source/Additional_Peripheral_Libraries/Netduino.Foundation.Sensors.Light.TSL2561/TSL2561.cs:45 | the accepted addresses are exactly 0x29, 0x39 and 0x49 |
| Tsl2561.TSL2561.constructor | Source/Additional_Peripheral_Libraries/Netduino.Foundation.Sensors.Light.TSL2561/TSL2561.cs:375-376 | a device on a fresh bus at that address and speed, with no pin bound and nothing sent |
| Tsl2561.TSL2561.Create | Source/Additional_Peripheral_Libraries/Netduino.Foundation.Sensors.Light.TSL2561/TSL2561.cs:369-377 | succeeds exactly for 0x29, 0x39 and 0x49 and fails with an out-of-range error otherwise; on success the device, its bus and its register file are all newly allocated, so the device owns its bus |
| Tsl2561.TSL2561.SensorReading | Source/Additional_Peripheral_Libraries/Netduino.Foundation.Sensors.Light.TSL2561/TSL2561.cs:117-123 | the two little-endian channel words Data0 and Data1 |
| Tsl2561.TSL2561.Lux | Source/Additional_Peripheral_Libraries/Netduino.Foundation.Sensors.Light.TSL2561/TSL2561.cs:128-197 | the branch Classify gives for the channel words and the timing in the register file |
| Tsl2561.TSL2561.ID | Source/Additional_Peripheral_Libraries/Netduino.Foundation.Sensors.Light.TSL2561/TSL2561.cs:207-213 | the contents of the ID register |
| Tsl2561.TSL2561.SensorGain | Source/Additional_Peripheral_Libraries/Netduino.Foundation.Sensors.Light.TSL2561/TSL2561.cs:228-232 | Low exactly when bit 4 of Timing is clear |
| Tsl2561.TSL2561.SetSensorGain | Source/Additional_Peripheral_Libraries/Netduino.Foundation.Sensors.Light.TSL2561/TSL2561.cs:233-245 | the gain then reads back as the value set; only bit 4 of Timing changes; no other register changes; one write is logged |
| Tsl2561.TSL2561.Timing | Source/Additional_Peripheral_Libraries/Netduino.Foundation.Sensors.Light.TSL2561/TSL2561.cs:253-258 | the timing whose code is bits 0-1 of Timing |
| Tsl2561.TSL2561.SetTiming | Source/Additional_Peripheral_Libraries/Netduino.Foundation.Sensors.Light.TSL2561/TSL2561.cs:259-273 | the timing then reads back as the value set; only bits 0-1 change, so the gain is kept; one write is logged |
| Tsl2561.TSL2561.ThresholdLow | Source/Additional_Peripheral_Libraries/Netduino.Foundation.Sensors.Light.TSL2561/TSL2561.cs:287-290 | the little-endian word at ThresholdLow |
| Tsl2561.TSL2561.SetThresholdLow | Source/Additional_Peripheral_Libraries/Netduino.Foundation.Sensors.Light.TSL2561/TSL2561.cs:291-294 | a word-mode write to 0x82+0x20; the low threshold then reads back as the value and the high threshold is unchanged |
| Tsl2561.TSL2561.ThresholdHigh | Source/Additional_Peripheral_Libraries/Netduino.Foundation.Sensors.Light.TSL2561/TSL2561.cs:308-311 | the little-endian word at ThresholdHigh |
| Tsl2561.TSL2561.SetThresholdHigh | Source/Additional_Peripheral_Libraries/Netduino.Foundation.Sensors.Light.TSL2561/TSL2561.cs:312-315 | a word-mode write to 0x84+0x20; the high threshold then reads back as the value and the low threshold is unchanged |
| Tsl2561.TSL2561.TurnOff | Source/Additional_Peripheral_Libraries/Netduino.Foundation.Sensors.Light.TSL2561/TSL2561.cs:404-407 | Control becomes 0x00 and nothing else changes |
| Tsl2561.TSL2561.TurnOn | Source/Additional_Peripheral_Libraries/Netduino.Foundation.Sensors.Light.TSL2561/TSL2561.cs:415-418 | Control becomes 0x03 and nothing else changes |
| Tsl2561.TSL2561.ClearInterrupt | Source/Additional_Peripheral_Libraries/Netduino.Foundation.Sensors.Light.TSL2561/TSL2561.cs:429-436 | sends 0xC0 and clears the bound port, if any; the binding is kept |
| Tsl2561.TSL2561.ManualStart | Source/Additional_Peripheral_Libraries/Netduino.Foundation.Sensors.Light.TSL2561/TSL2561.cs:441-448 | as written: writes the old byte with bits 0-1 set, then a byte with Manual timing and High gain whose manual bit is the old one and whose other bits are all set |
| Tsl2561.TSL2561.ManualStartCorrected | Source/Additional_Peripheral_Libraries/Netduino.Foundation.Sensors.Light.TSL2561/TSL2561.cs:441-448 | with the intended mask: manual integration selected and running; every other bit kept |
| Tsl2561.StopThenStartLeavesIntegrationStopped | Source/Additional_Peripheral_Libraries/Netduino.Foundation.Sensors.Light.TSL2561/TSL2561.cs:441-458 | as written, ManualStop followed by ManualStart leaves integration stopped and the gain High |
| Tsl2561.TSL2561.ManualStop | Source/Additional_Peripheral_Libraries/Netduino.Foundation.Sensors.Light.TSL2561/TSL2561.cs:453-458 | clears only bit 3 of Timing |
| Tsl2561.TSL2561.SetInterruptMode | Source/Additional_Peripheral_Libraries/Netduino.Foundation.Sensors.Light.TSL2561/TSL2561.cs:472-513 | fails exactly when count > 15, or when no pin is given and none is bound; a failure changes nothing; success rebinds the pin (releasing the old port), sends 0xC0, then writes mode in the upper nibble and count in the lower one to Interrupt Control |
| Tsl2561.TSL2561.AttachInterruptPin | Source/Additional_Peripheral_Libraries/Netduino.Foundation.Sensors.Light.TSL2561/TSL2561.cs:481-489 | releases the port bound so far, if any, opens one on the new pin and binds it |
| Tsl2561.TSL2561.Dispose | Source/Additional_Peripheral_Libraries/Netduino.Foundation.Sensors.Light.TSL2561/TSL2561.cs:386-392 | releases the bound port without unbinding it; with no pin bound it does nothing |

## Left out

- Tsl2561.TSL2561.Lux: returns only the branch (Zero, Branch1 to Branch4), not the double value. The floating-point formulas are not modelled: the coefficients, `Math.Pow(ratio, 1.4)`, the `402.0/ms` scaling and the x16 low-gain scaling. For the same reason the model omits the gain read, which only selects the scaling.
- Tsl2561.TSL2561.Create: does not state that nothing is allocated on failure. The body returns the error before constructing a bus.
- The I2C transport is abstract. Transport errors (NACK, timeout, busy), bus timing, and the meaning of a register for the hardware are not modelled. The data registers are whatever the file holds. Reads are not logged. The file's initial contents are left unspecified.
- The interrupt port is a pin number plus a log of Opened, Released and Cleared events. The `OnInterrupt` subscription, the interrupt handler and the `ReadingOutsideThresholdWindow` event are GPIO and interrupt-context dispatch, and are not modelled.
- `RegisterContents` only prints registers to the debug output.
- `Dispose` is not idempotent in the code: the port reference is kept, so a second call releases it again. The model states exactly that.
- The private parameterless constructor cannot be called from outside and is not modelled.
- C# lets callers cast any byte to an enum. Values outside the declared ones are not modelled: the enums are datatypes. For timing, the `& 0x03` mask discards the extra bits. For interrupt mode, `registerValue <<= 4` keeps cast values 2 to 15 whole in bits 4 to 7. Values 4 to 15 reach bits 6 and 7, outside the two-bit mode field. Values of 16 and above lose their high bits in the byte shift.
- The sample programs (serial LCD, H-bridge motor, SI7021 interrupt sample) and the `XMLObject` interface are not part of this model.

## Findings

| source | as written | input that shows it | evidently intended | confidence | as-written member | corrected member |
|---|---|---|---|---|---|---|
| Source/Additional_Peripheral_Libraries/Netduino.Foundation.Sensors.Light.TSL2561/TSL2561.cs:446 | ORs 0xF7 into the Timing byte after selecting Manual timing | Timing register 0x02 (402 ms, low gain, integration stopped): ManualStart writes 0xF7, so the manual bit stays 0 and the gain turns High | OR in 0x08, giving 0x0B: set the manual bit, keep the gain | high (the comment reads `~0x08`, and ManualStop clears the same bit by ANDing with 0xF7); not executed | Tsl2561.StopThenStartLeavesIntegrationStopped | Tsl2561.TSL2561.ManualStartCorrected |
