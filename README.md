# VCNL4020C driver model

A Dafny model of the Arduino driver for the Vishay VCNL4020C, a biosensor (proximity) and
ambient-light sensor with an I2C interface. The model covers the register map of the
header and every method of the `VCNL4020C` class. The methods cover the identity check and
default configuration, single and continuous measurement, the setters and getters of each
register, the 16-bit results and thresholds, and the four interrupt checks with their
acknowledge-and-re-arm sequence.

The modules follow the two source files:

- `registers.dfy` (module `Registers`) holds the header's constants, bit-exact. Lemmas
  state the layout facts the driver relies on.
- `codec.dfy` (module `Codec`) holds the pure byte arithmetic of the driver:
  - clamping;
  - packing the ambient-light and interrupt-control bytes;
  - the command bytes;
  - splitting thresholds and joining results;
  - decoding the ID byte.
- `bus.dfy` (module `Bus`) models the I2C transport and the chip behind it:
  - The `RegisterBus` class has a 16-cell register file and a log of every transaction
    with its outcome.
  - An oracle (a set of transaction numbers) decides which transactions fail.
  - `Chain` describes a sequence of requests that stops at the first failure. The
    driver's `if (!...) return false;` cascades have this shape.
- `driver.dfy` (module `Driver`) holds the class `Vcnl4020c`:
  - It has the source's fields and one method per source method, with the same branches,
    early returns and uses of the shared scratch byte `regValue`.
  - Each contract states the exact transactions the call makes (`Performed`), what it
    returns and the new values of the fields it may change.
- `scenarios.dfy` (module `Scenarios`) holds client sequences over a fresh bus:
  - thresholds round-trip through the setters and the getter;
  - the identity check accepts either matching nibble;
  - initialisation stops at the first failed write;
  - an interrupt is reported once;
  - stopping leaves pending interrupt flags set.

A pointer out-parameter is modelled as a value passed in together with its new value
returned. A failed read leaves the returned value equal to the one passed in, as the
source's unwritten destination does.

## Behaviour kept as written

The model reproduces the following behaviours of the source as they are. Each one is
stated in a contract or lemma.

- **Identity check.** `initSensorDefault` rejects the chip only when the product ID differs
  from 2 *and* the revision differs from 1. So one matching nibble is enough
  (`Codec.IdAcceptedIffEitherMatches`, `Scenarios.InitAcceptsEitherId`).
- **`setBioSensMod`.** It ignores its argument and writes the scratch byte. During
  initialisation that byte is the high byte of the high threshold, 0, not
  `BIO_SETTINGS_VISHAY` (`Driver.DefaultPlanBytes`).
- **Interrupt re-arm bits.** Each interrupt check re-arms by ORing its *status* mask into the
  control register. For the low threshold that is the threshold enable bit. For the high
  threshold it is bit 0, the threshold *select* bit (`Registers.InterruptMasks`, the
  `Check*Int` contracts).
- **Failed re-arm read.** If the control-register read of a re-arm fails, the byte written
  back is just the mask (`Driver.RearmValue`, `Driver.Vcnl4020c.Rearm`).
- **`getLedCurrent`.** It reports no read failure. On a failed read it returns the
  current-field bits of the stale scratch byte.
- **`stopContinuous`.** It writes 0 to the write-1-to-clear status register, which clears no
  flag (`Bus.StoredClearsStatusBits`, `Scenarios.StopKeepsPendingFlags`).
- **`_alsParam`.** It is initialised with a logical OR and so holds 1.
- **Shadow thresholds.** `_lowThresh` and `_highThresh` are never assigned, so the
  threshold interrupt is never armed by the start calls (`ThresholdsUnset` is preserved).
- **Clamping.** It caps an argument at the largest code but does not mask it. An
  out-of-range argument below the cap therefore sets bits of neighbouring fields
  (`Codec.AlsRateBleedsIntoOtherFields`, `Codec.IntCountBleedsIntoEnableBits`).
- **Result getters.** They return 0xFFFF on failure, which is also a possible reading
  (`Codec.SentinelIsAReading`).

## Model

| member | source | states |
|---|---|---|
| Registers.DisableMasksAreComplements | src/vcnl4020c.h:39-214 | every disable mask is the bitwise complement of its enable mask |
| Registers.CommandBitsAreSingleBits | src/vcnl4020c.h:39-51 | the eight command-register masks are the single bits 0..7, pairwise disjoint |
| Registers.BioRateCodes | src/vcnl4020c.h:67-74 | the biosensor rate codes are 0..7, BIO_SENS_RATE_250 the largest |
| Registers.LedRegisterFields | src/vcnl4020c.h:87-90 | the fuse and current fields partition the LED register; the clamp value 20 lies in the current field |
| Registers.AlsParamFieldsDisjoint | src/vcnl4020c.h:126-147 | rate codes occupy bits 6-4 and averaging codes bits 2-0, apart from compensation (bit 3) and continuous conversion (bit 7) |
| Registers.IntCountFieldDisjoint | src/vcnl4020c.h:199-216 | the count codes are i << 5 and overlap none of the enable and select bits |
| Registers.InterruptMasks | src/vcnl4020c.h:209-263 | the status masks are the bits 3..0; each equals a control-register bit, the high-threshold one the select bit |
| Registers.AddressesContiguous | src/vcnl4020c.h:37-293 | the sixteen register addresses are 0x80..0x8F in order, distinct, each with its own register-file cell |
| Codec.Clamp | src/vcnl4020c.cpp:244-265 | the clamped value is at most the cap and at most the argument, and is one of the two |
| Codec.ClampFacts | src/vcnl4020c.cpp:244-265 | clamping keeps legal values, replaces larger ones by the cap, and is idempotent |
| Codec.PackAlsParam | src/vcnl4020c.cpp:274-296 | the packed byte never requests continuous conversion, holds the compensation bit when asked and both clamped fields, and no other bit |
| Codec.PackAlsParamStepwise | src/vcnl4020c.cpp:276-291 | the byte ORed together field by field, as the setter does, is the packed byte |
| Codec.AlsParamRoundTrip | src/vcnl4020c.cpp:274-296 | for enumerated rate and averaging codes, rate, averaging and compensation read back from the packed byte |
| Codec.AlsRateBleedsIntoOtherFields | src/vcnl4020c.cpp:277-280 | a rate argument that is no rate code passes the clamp and sets compensation and averaging bits |
| Codec.PackIntControl | src/vcnl4020c.cpp:335-364 | each requested enable bit is set, the select bit is set for any selector other than INT_THRES_BIO, the high nibble is the clamped count; with a clean count each enable bit is set iff requested |
| Codec.PackIntControlStepwise | src/vcnl4020c.cpp:337-362 | the byte built up one field at a time, as the setter does, is the packed byte |
| Codec.IntControlRoundTrip | src/vcnl4020c.cpp:335-364 | for an enumerated count code, count, three enables and select read back from the byte |
| Codec.IntCountBleedsIntoEnableBits | src/vcnl4020c.cpp:358-362 | a count argument below the cap but with low bits set turns on an enable bit |
| Codec.SingleCommand | src/vcnl4020c.cpp:141-152 | the single-measurement command has the self-timed bit clear and exactly the start bits of the requested channels |
| Codec.ContinuousCommand | src/vcnl4020c.cpp:191-202 | the continuous command has the self-timed bit set and exactly the enable bits of the requested channels |
| Codec.ArmingByte | src/vcnl4020c.cpp:120-135 | the arming byte has exactly the requested data-ready enables and the threshold enable when asked, every other field zero |
| Codec.SingleCommandStepwise | src/vcnl4020c.cpp:142-152 | the command byte as the start call builds it, flag by flag, is SingleCommand |
| Codec.ContinuousCommandStepwise | src/vcnl4020c.cpp:192-202 | the command byte as the start call builds it is ContinuousCommand |
| Codec.ArmingByteStepwise | src/vcnl4020c.cpp:120-135 | the control byte as the start calls build it is ArmingByte |
| Codec.ClearedIsNotRaised | src/vcnl4020c.cpp:434-437 | once the bits of a non-empty mask are cleared the interrupt test fails; ORing a raised mask in changes nothing |
| Codec.SplitIds | src/vcnl4020c.cpp:239-240 | product and revision IDs are both at most 15 and recombine to the ID byte |
| Codec.IdAcceptedIffEitherMatches | src/vcnl4020c.cpp:34-40 | the identity test accepts iff the product nibble is 2 or the revision nibble is 1, with accepted and rejected examples |
| Codec.LowByte | src/vcnl4020c.cpp:373 | the low byte is the threshold's bits 7-0 |
| Codec.HighByte | src/vcnl4020c.cpp:378 | the high byte is the threshold's bits 15-8 |
| Codec.Join16 | src/vcnl4020c.cpp:316 | the joined value has the high byte in bits 15-8 and the low byte in bits 7-0 |
| Codec.SplitJoinRoundTrip | src/vcnl4020c.cpp:371-416 | splitting a threshold into bytes and joining them back is the identity, in both directions |
| Codec.SentinelIsAReading | src/vcnl4020c.cpp:303-317 | the failure value 0xFFFF is also the join of two 0xFF bytes |
| Bus.StoredClearsStatusBits | src/vcnl4020c.h:258-263 | writing the status register clears exactly the bits written as 1; writing 0 clears nothing; other registers store the byte |
| Bus.CommitAppend | src/vcnl4020c.cpp:528-570 | the effect of two logs one after the other is the effect of their concatenation |
| Bus.CommitKeeps | src/vcnl4020c.cpp:528-570 | a register that no successful write of a log names keeps its value |
| Bus.CommitLastWrite | src/vcnl4020c.cpp:528-570 | a register other than the status register holds the value of the last successful write to it |
| Bus.Chain | src/vcnl4020c.cpp:20-78 | a cascade of requests that stops at the first failure makes at most one access per request, and at least one if there is any request |
| Bus.ChainShape | src/vcnl4020c.cpp:20-78 | the cascade makes the requests in order with the oracle's outcomes; every access but the last succeeded; it stops early only after a failure |
| Bus.ChainStopsAt | src/vcnl4020c.cpp:20-78 | when transaction start + j is the first failure, the cascade makes j + 1 requests and fails |
| Bus.ChainCompletes | src/vcnl4020c.cpp:20-78 | a cascade succeeds iff it ran to its end with every access successful |
| Bus.ChainUnique | src/vcnl4020c.cpp:20-78 | the cascade is the only log that follows the requests with the oracle's outcomes and stops at the first failure |
| Bus.ChainAppend | src/vcnl4020c.cpp:20-78 | running two cascades one after the other, the second only if the first succeeded, is running their concatenation |
| Bus.RegisterBus.Write | src/vcnl4020c.cpp:528-546 | one write transaction: logged with its outcome, and on success it stores the byte (clearing bits for the status register) |
| Bus.RegisterBus.Read | src/vcnl4020c.cpp:548-570 | one read transaction: logged, registers unchanged, and on success the value is the register's content |
| Driver.DefaultPlanBytes | src/vcnl4020c.cpp:40-77 | the default configuration writes 0, 6, 10, 0x70, 0, 0, 0, 0, 0 and 0 to the ten registers; the last byte is not BIO_SETTINGS_VISHAY |
| Driver.RearmValue | src/vcnl4020c.cpp:440-442 | the re-armed control byte has the mask set and otherwise the bits of the byte read, or of the stale scratch byte if the read failed |
| Driver.Acknowledgement | src/vcnl4020c.cpp:436-443 | acknowledging is one status write of the mask, followed by a control read and write when the interrupt is armed |
| Driver.CheckedRegisters | src/vcnl4020c.cpp:427-447 | after a successful check, the status bits of the mask are cleared if that write succeeded, and the control register holds the re-armed byte if armed and that write succeeded, else its old value |
| Driver.Vcnl4020c.constructor | src/vcnl4020c.h:594-620 | field initialisers: command shadow 0x80, rate 125/s, LED 10, `_alsParam` 1, thresholds 0, modulation 1, nothing armed, no callback, pin -1 |
| Driver.Vcnl4020c.WriteRegs | src/vcnl4020c.cpp:528-546 | one write transaction with its outcome; the register file changes only on success |
| Driver.Vcnl4020c.ReadRegs | src/vcnl4020c.cpp:548-570 | one read transaction; the caller's byte receives the register on success and is untouched on failure |
| Driver.Vcnl4020c.InitSensorDefault | src/vcnl4020c.cpp:20-78 | the ID read, then, only if it succeeded and the chip was accepted, the default cascade; success iff accepted and every write succeeded; the scratch byte afterwards: unchanged after a failed ID read, the ID byte after a rejected chip, 0x70 when the ambient-light write is the one that fails, 0 otherwise |
| Driver.Vcnl4020c.SetDefaults | src/vcnl4020c.cpp:40-77 | the ten default writes as one cascade stopping at the first failure; success iff all succeed; the scratch byte is 0x70 when the ambient-light write fails and 0 otherwise |
| Driver.Vcnl4020c.SetDefaultsHead | src/vcnl4020c.cpp:40-66 | the command, rate, LED, ambient-light and control writes as a cascade; the scratch byte is 0x70 when the ambient-light write fails and 0 otherwise |
| Driver.Vcnl4020c.SetDefaultsTail | src/vcnl4020c.cpp:67-77 | the two threshold setters and the modulation write as a cascade, leaving the scratch byte 0 on every path |
| Driver.Vcnl4020c.GetCmdReg | src/vcnl4020c.cpp:80-83 | one read of the command register into the caller's byte |
| Driver.Vcnl4020c.AlsDataReady | src/vcnl4020c.cpp:85-95 | true iff the command register was read and its ambient-light ready bit is set |
| Driver.Vcnl4020c.BioDataReady | src/vcnl4020c.cpp:97-107 | true iff the command register was read and its biosensor ready bit is set |
| Driver.Vcnl4020c.StartSingle | src/vcnl4020c.cpp:109-156 | defaults bio on, ambient light off (src/vcnl4020c.h:355); with a callback bound: only the arming byte is written to the control register and the armed kinds are recorded; otherwise only the single-measurement command is written |
| Driver.Vcnl4020c.ArmInterrupts | src/vcnl4020c.cpp:120-138 | writes the arming byte for the requested channels (threshold enable iff both shadow thresholds are non-zero) and records each kind armed |
| Driver.Vcnl4020c.StartContinuous | src/vcnl4020c.cpp:158-206 | defaults bio on, ambient light off (src/vcnl4020c.h:364); with a callback bound: the arming write, then the continuous command only if it succeeded; otherwise the command alone |
| Driver.Vcnl4020c.StopContinuous | src/vcnl4020c.cpp:208-231 | with a callback bound: a status write of 0, then the command write of 0 only if it succeeded; every armed kind is cleared unless the first write failed; the status register keeps its value |
| Driver.Vcnl4020c.GetIds | src/vcnl4020c.cpp:233-242 | one ID read; on success the high and low nibbles, on failure the caller's bytes untouched |
| Driver.Vcnl4020c.SetBioDataRate | src/vcnl4020c.cpp:244-251 | one write of the rate clamped to BIO_SENS_RATE_250 |
| Driver.Vcnl4020c.GetBioDataRate | src/vcnl4020c.cpp:253-256 | one read of the rate register into the caller's byte |
| Driver.Vcnl4020c.SetLedCurrent | src/vcnl4020c.cpp:258-265 | one write of the current clamped to 20 |
| Driver.Vcnl4020c.GetLedCurrent | src/vcnl4020c.cpp:267-272 | one read; the result is the current field of the register, or of the stale scratch byte when the read failed, never a fuse bit |
| Driver.Vcnl4020c.SetAlsParam | src/vcnl4020c.cpp:274-296 | offset compensation on by default (src/vcnl4020c.h:440); one write of the packed ambient-light byte, which stays in the scratch byte |
| Driver.Vcnl4020c.GetAlsParam | src/vcnl4020c.cpp:298-301 | one read of the ambient-light parameter register into the caller's byte |
| Driver.Vcnl4020c.ReadResult | src/vcnl4020c.cpp:303-333 | low byte read, then high byte read only if the first succeeded; the joined value, or 0xFFFF if either read failed |
| Driver.Vcnl4020c.GetAlsValue | src/vcnl4020c.cpp:303-317 | the ambient-light result registers joined, or 0xFFFF on a failed read |
| Driver.Vcnl4020c.GetBioValue | src/vcnl4020c.cpp:319-333 | the biosensor result registers joined, or 0xFFFF on a failed read |
| Driver.Vcnl4020c.SetIntControl | src/vcnl4020c.cpp:335-364 | one write of the packed control byte, which stays in the scratch byte |
| Driver.Vcnl4020c.GetIntControl | src/vcnl4020c.cpp:366-369 | one read of the control register into the caller's byte |
| Driver.Vcnl4020c.SetThresholdLow | src/vcnl4020c.cpp:371-380 | low byte then high byte of the low threshold, the second only if the first succeeded |
| Driver.Vcnl4020c.SetThresholdHigh | src/vcnl4020c.cpp:382-391 | low byte then high byte of the high threshold, the second only if the first succeeded |
| Driver.Vcnl4020c.GetThresholds | src/vcnl4020c.cpp:393-416 | four reads as a cascade; the low threshold is delivered once its two reads succeed, the high one only when all four do; otherwise the caller's values stay |
| Driver.Vcnl4020c.CheckInterrupts | src/vcnl4020c.cpp:418-425 | one read of the status register into the caller's byte |
| Driver.Vcnl4020c.CheckInt | src/vcnl4020c.cpp:427-447 | reports an interrupt iff the status read succeeds and every bit of the mask is set; then acknowledges it, re-arming when armed; otherwise nothing else happens |
| Driver.Vcnl4020c.Acknowledge | src/vcnl4020c.cpp:436-443 | the status write of the mask, then the re-arm when armed, as Acknowledgement lists |
| Driver.Vcnl4020c.Rearm | src/vcnl4020c.cpp:440-442 | control read, then a write of RearmValue, whatever the read's outcome |
| Driver.Vcnl4020c.CheckBioInt | src/vcnl4020c.cpp:427-447 | hit iff the biosensor ready bit is read set; on a hit the bit is cleared if that write succeeds, and when armed the control register gets the biosensor enable ORed in (or only that bit when the control read failed); the exact transactions are the status read and, on a hit, those Acknowledgement lists; the scratch byte is the status byte read (or unchanged) on a miss, and the mask or the re-arm byte on a hit |
| Driver.Vcnl4020c.CheckAlsInt | src/vcnl4020c.cpp:449-468 | the same for the ambient-light ready bit and enable, scratch byte included |
| Driver.Vcnl4020c.CheckThreshLowInt | src/vcnl4020c.cpp:470-489 | the same for the low-threshold bit; the re-arm sets the threshold enable bit; scratch byte as for CheckBioInt |
| Driver.Vcnl4020c.CheckThreshHighInt | src/vcnl4020c.cpp:491-510 | the same for the high-threshold bit; the re-arm sets the threshold select bit; scratch byte as for CheckBioInt |
| Driver.Vcnl4020c.SetBioSensMod | src/vcnl4020c.cpp:512-515 | one write of the scratch byte to the modulation register, whatever the argument |
| Driver.Vcnl4020c.SetInterruptCb | src/vcnl4020c.cpp:517-521 | records callback and pin; interrupts are bound iff a callback is given and the pin is not -1 |
| Driver.Vcnl4020c.GetBioSensMod | src/vcnl4020c.cpp:523-526 | one read of the modulation register into the caller's byte |
| Scenarios.ThresholdsStored | src/vcnl4020c.cpp:371-416 | after both threshold setters succeed, the threshold registers hold bytes that join back to the two thresholds |
| Scenarios.ThresholdRoundTrip | src/vcnl4020c.cpp:371-416 | with no failures, the thresholds the getter returns are the ones the setters wrote |
| Scenarios.InitAcceptsEitherId | src/vcnl4020c.cpp:20-78 | with no failures, initialisation succeeds iff the product nibble is 2 or the revision nibble is 1, and a rejected chip leaves its ID byte in the scratch byte |
| Scenarios.InitStopsAtFailure | src/vcnl4020c.cpp:20-78 | when transaction k is the only failure, initialisation fails after exactly k + 1 transactions |
| Scenarios.InterruptReportedOnce | src/vcnl4020c.cpp:427-447 | a pending biosensor interrupt is reported by the first check and not by the second |
| Scenarios.ModulationTakesScratchByte | src/vcnl4020c.cpp:512-515 | after a check that hit the biosensor bit with no re-arm, the modulation setter stores that bit's mask (0x08), not the vendor setting it was passed |
| Scenarios.StopKeepsPendingFlags | src/vcnl4020c.cpp:208-231 | after stopping with a callback bound, the status register still reads as before |

## Left out

- I2C details are left out. The `TwoWire` calls (`beginTransmission`, `write`,
  `endTransmission`, `requestFrom`, `read`) become one transaction per register access,
  whose outcome the oracle decides. The bus address and the repeated-start flag are not
  modelled.
- `writeRegs` discards the status that its final `endTransmission()` returns
  (src/vcnl4020c.cpp:544) and reports success once the bytes were queued; `readRegs`
  checks the status of its own `endTransmission(false)` (src/vcnl4020c.cpp:556). The
  source can therefore report a write as successful that never reached the chip. The model
  idealises that path: a write the oracle lets succeed is stored, and a write that fails
  is reported as failed.
- Only the single-byte transfers of `writeRegs` and `readRegs` are modelled, because
  every call in the driver passes a length of 1.
- `_i2c->begin()`, `setClock(800000)`, `delay(10)`, `pinMode`, `attachInterrupt`,
  `detachInterrupt` and the nRF52 `_i2c->end()` have no effect on the model's state.
  They configure the host, not the chip.
- The interrupt callback is modelled only as present or absent, because the driver never
  calls it. Interrupts arriving concurrently with a call are not modelled.
- The chip's own behaviour is limited to storing written bytes and clearing status bits
  written as 1. The chip setting ready bits, producing results or latching thresholds is
  a foreign process. The result and status registers change only through writes.
- The destructor is empty and is not modelled.
- Some methods compute in a local byte and assign `regValue` once at the end. The source
  ORs into `regValue` step by step. No other code can observe the intermediate values.
- Helper methods group code that the source repeats inline, and each calls the same
  writes in the same order:
  - `ArmInterrupts` is the block both start calls share.
  - `Acknowledge`, `Rearm` and `CheckInt` are the body the four interrupt checks share.
  - `ReadResult` is the body of the two result getters.
  - `SetDefaults`, `SetDefaultsHead` and `SetDefaultsTail` split the body of
    `initSensorDefault` after the identity check.
