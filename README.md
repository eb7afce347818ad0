# MAX7219 daisy-chain driver

This project models the MAX7219 LED-controller driver in `src/driver/max7219.rs` and proves
properties of the model in Dafny. The driver addresses a daisy chain of up to `MAX_DISPLAYS`
chips over SPI. Each chip takes a 16-bit packet, one address byte and one data byte, and
the packets are shifted through the chain.

The driver (`Driver.Max7219`) holds three things:
- a reusable transmit buffer of `2 * MAX_DISPLAYS` bytes (an `array<u8>`);
- the configured chain length `deviceCount`;
- the bus it writes to (`Driver.SpiBus`).

The bus keeps a log of every frame handed to it and, beside it, whether it accepted each
one. Whether a transfer succeeds is left open (`ok := *`). Every status a method returns after
a transfer is tied to that record: `Ok` iff the bus accepted the transfer, `Err(Spi)` iff it
refused it.

Everything is built on two primitives:
- `WriteDeviceRegister` writes one device and sends the no-op pair to every other device;
- `WriteAllRegisters` writes one pair per device.

Both zero the whole buffer, fill it, and send its first `2 * deviceCount` bytes as one frame.
The power, test, scan-limit, decode-mode, intensity and raw-digit operations each add a
validation rule or a fixed register and value. `ClearDisplay`, `ClearAll` and `Init` send fixed
sequences of frames. Every transfer before the last was accepted. The sequence stops at the
first refusal, and then the result is `Err(Spi)`.

The modules:
- `Base`: the byte type and the constants.
- `Errors`: the error kinds and result shapes.
- `Registers`: the register map, the digit list, `try_digit`, and the decode-mode bytes with the
  digits each byte decodes.
- `Frames`: the frames each operation must produce, as functions of its arguments, with lemmas
  relating them.
- `Chain`: an independent reference for what a frame does to the chips. Each chip is a shift
  register, the chips latch when the transfer ends, and NoOp leaves a chip unchanged. It is used
  to prove that a one-device frame changes only its target and that a broadcast reaches every
  chip.
- `Driver`: the driver class. Each method's contract gives:
  - its argument errors, with nothing sent;
  - the exact frames it hands to the bus;
  - the bus's verdict on each of them, which the returned status reports.

  The `Sent` predicate and its lemmas describe multi-transfer sequences that stop at the first
  refused transfer.
- `Scenarios`: all 31 of the driver's unit tests replayed, one method per test, each on a
  fresh driver over a fresh bus. Each states what its test checks: the results, the device
  count, and for every test that expects transfers the bus log byte by byte, together with the
  verdicts the results reflect.

The model follows the code: `with_device_count` accepts a count of 0, because it only refuses counts above `MAX_DISPLAYS`
(`src/driver/max7219.rs:58-64`). A one-device write zeroes the whole `2 * MAX_DISPLAYS`-byte
buffer, not only the bytes it sends.

## Model

| member | source | states |
|---|---|---|
| Registers.Addr | src/driver/max7219.rs:489-496 | Only NoOp has address 0, so a zero pair is the no-op packet. Every address fits in four bits. Digit registers sit at addresses 1 to 8. |
| Registers.AddrInjective | src/driver/max7219.rs:117 | Distinct registers are written as distinct address bytes. |
| Registers.Digits | src/driver/max7219.rs:753-775 | The digit registers are eight, in ascending order: position k is the register at address 1 + k. |
| Registers.TryDigit | src/driver/max7219.rs:348-349 | Succeeds iff the digit number is below 8, giving the digit register at address d + 1. Otherwise it fails with InvalidDigit. |
| Registers.TryDigitMatchesDigits | src/driver/max7219.rs:348-350 | Looking a digit up by number gives the same register as position d of the ordered digit list. |
| Registers.DecodeMode.Byte | src/driver/max7219.rs:246-253 | The byte a mode is written as is 0 exactly for NoDecode. |
| Registers.DecodeModeBits | src/driver/max7219.rs:240-243 | Bit k of a mode's byte is set iff that mode decodes digit k: none, digit 0, digits 0 to 3, or all eight. |
| Frames.OneDeviceFrame | src/driver/max7219.rs:114-120 | The frame for device i of a chain of `count` is 2·count bytes long. Bytes 2i and 2i+1 are the address and data. Every other byte is 0. |
| Frames.OpsFrame | src/driver/max7219.rs:138-148 | The frame for an operation list is two bytes per entry, and pair k is the address and data of entry k. |
| Frames.BroadcastFrame | src/driver/max7219.rs:159-161 | The broadcast frame is 2·count bytes: the address at every even position and the data at every odd one. |
| Frames.PairsMatch | src/driver/max7219.rs:140-144 | Any byte sequence whose pairs hold the entries of `ops` in order equals the operation frame, proved by induction on the list. |
| Frames.PairsFrame | src/driver/max7219.rs:140-148 | A buffer filled pair by pair from `ops` starts with the operation frame, which is the prefix that is sent. |
| Frames.UniformIsBroadcast | src/driver/max7219.rs:159-161 | The first n entries of an array of identical pairs produce the broadcast frame of that pair. |
| Frames.OneDeviceIsNoOpElsewhere | src/driver/max7219.rs:87-92 | A one-device write is the same frame as writing every device, with NoOp for all but the target. |
| Frames.OneDeviceFramePrefix | src/driver/max7219.rs:114-120 | The full buffer after a one-device write is the frame for the configured chain followed by zeros. |
| Frames.Uniform | src/driver/max7219.rs:159 | An array of n identical pairs: every entry is the given register and data. |
| Frames.ClearDisplayFrames | src/driver/max7219.rs:263-266 | Clearing a device is eight frames. Frame k writes 0 to digit address k + 1 of the target device alone. |
| Frames.ClearAllFrames | src/driver/max7219.rs:271-275 | Clearing every device is eight frames. Frame k broadcasts 0 to digit address k + 1. |
| Frames.SettingFrames | src/driver/max7219.rs:67-72 | The start-up settings are four broadcasts, in order: Shutdown = 1, DisplayTest = 0, ScanLimit = 7 and DecodeMode = 0. |
| Frames.InitFrames | src/driver/max7219.rs:67-79 | Start-up is twelve frames: the four setting broadcasts, then frames 4 to 11 clearing digits 0 to 7 in order. |
| Chain.ShiftAllWindow | src/driver/max7219.rs:128-129 | After a transfer the chain holds the last packets shifted in, whatever it held before. |
| Chain.ShiftAllFillsInOrder | src/driver/max7219.rs:128-129 | A transfer of one packet per chip leaves the first packet sent in the furthest chip and the last in the nearest. |
| Chain.TransmitFills | src/driver/max7219.rs:128-129 | After a frame of one packet per chip, chip k latches packet k of the frame. |
| Chain.OpsFramePackets | src/driver/max7219.rs:128-129 | Packet k of an operation frame is entry k of the list. |
| Chain.TransmitOpsFrame | src/driver/max7219.rs:125-129 | An operation frame makes chip k execute entry k of the list, with entry 0 going to the furthest chip. |
| Chain.OneDeviceFrameReachesOnlyTarget | src/driver/max7219.rs:91-92 | A one-device frame changes the target chip as asked and leaves every other chip exactly as it was. |
| Chain.BroadcastFrameReachesEveryChip | src/driver/max7219.rs:197 | A broadcast frame makes every chip perform the same register write in one transfer. |
| Chain.BroadcastTwiceIsOnce | src/driver/max7219.rs:138-148 | Repeating a broadcast leaves the chips as one broadcast does, whatever the chain held in between. |
| Driver.SentPrefix | src/driver/max7219.rs:264-266 | A sequence that ended in a refusal within a prefix of the frames is a sequence over all of them: nothing after the refusal was sent. |
| Driver.SentContinue | src/driver/max7219.rs:264-266 | A run of successful transfers followed by further transfers is one run over the concatenation. A failure in the second part ends the whole sequence. |
| Driver.SentStep | src/driver/max7219.rs:272-275 | One more transfer after k successful ones extends the run to k + 1 frames. If it fails, the whole sequence has stopped there. |
| Driver.SentAppend | src/driver/max7219.rs:67-74 | A fully successful sequence followed by another sequence is a sequence over both lists of frames. |
| Driver.OutcomesAppend | src/driver/max7219.rs:264-266 | A run of accepted transfers followed by a run that stops at its first refusal is one run that stops there. |
| Driver.SentThen | src/driver/max7219.rs:67-78 | A second sequence that runs only if the first succeeded gives a sequence over both lists, with the second's outcome. The `?` operator behaves this way. |
| Driver.PaddedFrame | src/driver/max7219.rs:114-120 | A buffer holding a frame followed by zeros sends exactly that frame as its prefix. |
| Driver.SpiBus.Write | src/driver/max7219.rs:120 | Each transfer appends exactly its frame to the bus log, whether it succeeds or not, and records the verdict it returns. |
| Driver.Max7219.constructor | src/driver/max7219.rs:31-37 | A new driver has one device and an all-zero buffer, and transfers nothing. |
| Driver.Max7219.DeviceCount | src/driver/max7219.rs:43-45 | Reports the configured chain length, which never exceeds MAX_DISPLAYS. |
| Driver.Max7219.WithDeviceCount | src/driver/max7219.rs:58-64 | Fails with InvalidDeviceCount iff the count exceeds MAX_DISPLAYS, and then keeps the old count. Otherwise it sets the count (0 included). |
| Driver.Max7219.WriteDeviceRegister | src/driver/max7219.rs:104-123 | An index at or beyond the chain length gets InvalidDeviceIndex, with nothing sent and the buffer untouched. Otherwise exactly the one-device frame is sent and the buffer holds it padded with zeros. The result is Ok iff the bus accepted the frame, and Err(Spi) iff it refused it. |
| Driver.Max7219.WriteAllRegisters | src/driver/max7219.rs:136-151 | Sends exactly the operation frame for `ops`, whatever the buffer held before. The result is Ok iff the bus accepted the frame, and Err(Spi) iff it refused it. |
| Driver.Max7219.PowerOn | src/driver/max7219.rs:158-162 | Sends one frame broadcasting Shutdown = 1. The result is Ok iff the bus accepted the frame, and Err(Spi) iff it refused it. |
| Driver.Max7219.PowerOff | src/driver/max7219.rs:165-169 | Sends one frame broadcasting Shutdown = 0. The result is Ok iff the bus accepted the frame, and Err(Spi) iff it refused it. |
| Driver.Max7219.PowerOnDevice | src/driver/max7219.rs:176-178 | Writes Shutdown = 1 to the one device, or rejects the index. The result is Ok iff the bus accepted the frame, and Err(Spi) iff it refused it. |
| Driver.Max7219.PowerOffDevice | src/driver/max7219.rs:185-187 | Writes Shutdown = 0 to the one device, or rejects the index. The result is Ok iff the bus accepted the frame, and Err(Spi) iff it refused it. |
| Driver.Max7219.TestDevice | src/driver/max7219.rs:192-195 | Writes DisplayTest = 1 or 0 to the one device, or rejects the index. The result is Ok iff the bus accepted the frame, and Err(Spi) iff it refused it. |
| Driver.Max7219.TestAll | src/driver/max7219.rs:198-202 | Broadcasts DisplayTest = 1 or 0 in one frame. The result is Ok iff the bus accepted the frame, and Err(Spi) iff it refused it. |
| Driver.Max7219.SetDeviceScanLimit | src/driver/max7219.rs:217-223 | A limit outside 1..8 gets InvalidScanLimit and nothing is sent, before any index check. Otherwise it writes limit − 1 to the one device, or rejects the index. The result is Ok iff the bus accepted the frame, and Err(Spi) iff it refused it. |
| Driver.Max7219.SetScanLimitAll | src/driver/max7219.rs:228-235 | A limit outside 1..8 gets InvalidScanLimit and nothing is sent. Otherwise it broadcasts limit − 1. The result is Ok iff the bus accepted the frame, and Err(Spi) iff it refused it. |
| Driver.Max7219.SetDeviceDecodeMode | src/driver/max7219.rs:246-248 | Writes the mode's byte to the DecodeMode register of the one device, or rejects the index. The result is Ok iff the bus accepted the frame, and Err(Spi) iff it refused it. |
| Driver.Max7219.SetDecodeModeAll | src/driver/max7219.rs:251-255 | Broadcasts the mode's byte to DecodeMode. The result is Ok iff the bus accepted the frame, and Err(Spi) iff it refused it. |
| Driver.Max7219.ClearDisplay | src/driver/max7219.rs:263-268 | An invalid index gets InvalidDeviceIndex with nothing sent. Otherwise it sends the eight clearing frames in digit order. Each frame before the last was accepted. It returns Ok iff all eight were accepted, and Err(Spi) at the first refusal, sending nothing after it. |
| Driver.Max7219.ClearAll | src/driver/max7219.rs:271-278 | Sends the eight broadcast clearing frames in digit order. Each frame before the last was accepted. It returns Ok iff all eight were accepted, and Err(Spi) at the first refusal, sending nothing after it. |
| Driver.Max7219.WriteRawDigit | src/driver/max7219.rs:348-351 | A digit of 8 or more gets InvalidDigit with nothing sent, before any index check. Otherwise it writes the value to that digit register of the one device. The result is Ok iff the bus accepted the frame, and Err(Spi) iff it refused it. |
| Driver.Max7219.SetIntensity | src/driver/max7219.rs:359-364 | An intensity above 15 gets InvalidIntensity with nothing sent, before any index check. Otherwise it writes the value unchanged to the one device. The result is Ok iff the bus accepted the frame, and Err(Spi) iff it refused it. |
| Driver.Max7219.SetIntensityAll | src/driver/max7219.rs:367-373 | An intensity above 15 gets InvalidIntensity with nothing sent. Otherwise it broadcasts the value. The result is Ok iff the bus accepted the frame, and Err(Spi) iff it refused it. |
| Driver.Max7219.StartupPowerSettings | src/driver/max7219.rs:68-70 | Sends the first two setting broadcasts, power on and test mode off. It stops at the first refusal with Err(Spi). |
| Driver.Max7219.StartupScanSettings | src/driver/max7219.rs:71-72 | Sends the last two setting broadcasts, scan limit 7 and no decoding. It stops at the first refusal with Err(Spi). |
| Driver.Max7219.ApplyStartupSettings | src/driver/max7219.rs:67-72 | Sends power on, test mode off, scan limit 7 and no decoding as four broadcasts. Earlier ones were accepted. It returns Ok iff all four were, and stops at the first refusal with Err(Spi). |
| Driver.Max7219.Init | src/driver/max7219.rs:67-79 | Sends the four setting frames and then the eight clearing frames, in order. Earlier ones were accepted. It returns Ok iff all twelve were, and stops at the first refusal with Err(Spi). |
| Scenarios.NewDriver | src/driver/max7219.rs:383-390 | A new driver reports one device and sends nothing. |
| Scenarios.AcceptedDeviceCount | src/driver/max7219.rs:393-401 | A count of 4 is accepted and reported, and nothing is sent. |
| Scenarios.RefusedDeviceCount | src/driver/max7219.rs:404-411 | MAX_DISPLAYS + 1 is refused with InvalidDeviceCount and nothing is sent. |
| Scenarios.PowerOnSingle | src/driver/max7219.rs:414-425 | Powering on a single device sends exactly `0C 01`. The result reports the bus's verdict on that one transfer. |
| Scenarios.PowerOffSingle | src/driver/max7219.rs:428-439 | Powering off a single device sends exactly `0C 00`. The result reports the bus's verdict on that one transfer. |
| Scenarios.PowerOnDeviceSingle | src/driver/max7219.rs:442-455 | Powering on device 0 of a single device sends exactly `0C 01`. The result reports the bus's verdict on that one transfer. |
| Scenarios.PowerOnThreeDevices | src/driver/max7219.rs:458-481 | Powering on a chain of three sends exactly `0C 01 0C 01 0C 01`. The result reports the bus's verdict on that one transfer. |
| Scenarios.PowerOffThirdOfFour | src/driver/max7219.rs:484-509 | Powering off device 2 of 4 sends exactly `00 00 00 00 0C 00 00 00`. The result reports the bus's verdict on that one transfer. |
| Scenarios.PowerMissingDevice | src/driver/max7219.rs:512-522 | Powering device 1 of a one-device chain on or off is refused with InvalidDeviceIndex and sends nothing. |
| Scenarios.TestAllOfFour | src/driver/max7219.rs:524-549 | Test mode on for a chain of four sends exactly `0F 01` four times. The result reports the bus's verdict on that one transfer. |
| Scenarios.TestAllOff | src/driver/max7219.rs:552-565 | Test mode off for a single device sends exactly `0F 00`. The result reports the bus's verdict on that one transfer. |
| Scenarios.ScanLimitAllValid | src/driver/max7219.rs:568-582 | Scan limit 4 for every device sends exactly `0B 03`. The result reports the bus's verdict on that one transfer. |
| Scenarios.ScanLimitAllTooLow | src/driver/max7219.rs:585-592 | Scan limit 0 is refused with InvalidScanLimit and nothing is sent. |
| Scenarios.ScanLimitAllTooHigh | src/driver/max7219.rs:595-602 | Scan limit 9 is refused with InvalidScanLimit and nothing is sent. |
| Scenarios.DecodeAllOfFour | src/driver/max7219.rs:604-630 | Decoding all digits on a chain of four sends exactly `09 FF` four times. The result reports the bus's verdict on that one transfer. |
| Scenarios.SingleDeviceClearFrames | src/driver/max7219.rs:632-648 | The frames that clear the only device are `01 00` to `08 00`, in order. |
| Scenarios.ClearSingleDevice | src/driver/max7219.rs:632-648 | A successful clear of one device sends exactly those eight frames, all accepted. A failed one sends a non-empty prefix of them, all accepted but the last. |
| Scenarios.ClearMissingDevice | src/driver/max7219.rs:651-660 | Clearing device 1 of a one-device chain is refused with InvalidDeviceIndex and sends nothing. |
| Scenarios.RawDigit | src/driver/max7219.rs:663-679 | Raw digit 3 of device 0 sends exactly `04 AA`. The result reports the bus's verdict on that one transfer. |
| Scenarios.RawDigitInvalid | src/driver/max7219.rs:682-691 | Raw digit 8 is refused with InvalidDigit and nothing is sent. |
| Scenarios.IntensityValid | src/driver/max7219.rs:694-709 | Intensity 0x0A for device 0 sends exactly `0A 0A`. The result reports the bus's verdict on that one transfer. |
| Scenarios.IntensityInvalid | src/driver/max7219.rs:712-719 | Intensity 0x10 is refused with InvalidIntensity and nothing is sent. |
| Scenarios.SingleDeviceStartupFrames | src/driver/max7219.rs:722-784 | The start-up frames for one device are the twelve two-byte frames listed in the test, in order. |
| Scenarios.StartSingleDevice | src/driver/max7219.rs:722-784 | A successful start-up of one device sends exactly those twelve frames, all accepted. A failed one sends a non-empty prefix of them, all accepted but the last. |
| Scenarios.WriteFirstOfTwo | src/driver/max7219.rs:787-808 | Writing Shutdown = 1 to device 0 of two sends exactly `0C 01 00 00`. The result reports the bus's verdict on that one transfer. |
| Scenarios.WriteMissingOfTwo | src/driver/max7219.rs:811-821 | Writing device 2 of a two-device chain is refused with InvalidDeviceIndex and nothing is sent. |
| Scenarios.WriteBothDevices | src/driver/max7219.rs:824-845 | Two Intensity = 1 entries on a two-device chain send exactly `0A 01 0A 01`. The result reports the bus's verdict on that one transfer. |
| Scenarios.TestDeviceOnOff | src/driver/max7219.rs:848-867 | Test mode on and then off for device 0 sends `0F 01` and then `0F 00`. Each result reports the bus's verdict on its own transfer. |
| Scenarios.DeviceScanLimit | src/driver/max7219.rs:870-885 | Scan limit 4 for device 0 sends exactly `0B 03`. The result reports the bus's verdict on that one transfer. |
| Scenarios.DeviceScanLimitInvalid | src/driver/max7219.rs:888-898 | Scan limits 0 and 9 for device 0 are refused with InvalidScanLimit and nothing is sent. |
| Scenarios.DecodeLowDigits | src/driver/max7219.rs:900-915 | Decoding digits 0 to 3 on the single device sends exactly `09 0F`. The result reports the bus's verdict on that one transfer. |
| Scenarios.IntensityAllOfTwo | src/driver/max7219.rs:918-939 | Intensity 5 for a chain of two sends exactly `0A 05 0A 05`. The result reports the bus's verdict on that one transfer. |
| Scenarios.IntensityAllInvalid | src/driver/max7219.rs:942-949 | Intensity 0x10 for every device is refused with InvalidIntensity and nothing is sent. |

## Left out

- The SPI transport, its mode and frequency requirements, and the mock used by the tests. The bus is a log of frames plus an unknown success flag, and the transport's own error value is not carried: every transport failure is `Err(Spi)`.
- Rust ownership and generics. `with_device_count` consumes and returns the driver, which is modelled as a method that updates `deviceCount` in place. When it refuses a count, the Rust driver is dropped with the error; the model keeps the driver with its old count. The driver is not generic over the bus type.
- `registers.rs`, `error.rs` and `lib.rs` are not among the modelled source files. The `Registers` and `Errors` modules model the items the driver takes from them: the register enumeration and its addresses, the ordered digit list, `try_digit`, the decode modes and their bytes, and the error kinds. Their values are assumed to be the MAX7219 datasheet values, not read from those files. The properties proved about them are:
  - `Addr`: NoOp is the only register at address 0, and every address fits in four bits;
  - `AddrInjective`: distinct registers have distinct addresses;
  - `Digits`: the digit registers are at addresses 1 to 8, in order;
  - `TryDigit` and `TryDigitMatchesDigits`: the digit lookup succeeds iff the number is below 8, giving position d of that list;
  - `DecodeMode.Byte`: a mode's byte is 0 iff the mode is NoDecode;
  - `DecodeModeBits`: bit k of a mode's byte is set iff the mode decodes digit k, as the doc comment of `set_device_decode_mode` describes the modes. The driver itself only passes the byte on.
- `MAX_DISPLAYS` and `NUM_DIGITS` are declared in `lib.rs`. They are assumed to be 8 and 8.
- Driver.Max7219.WriteAllRegisters: requires exactly one entry per configured device, as its documentation demands. The code has no check. With a shorter list it would send trailing zero pairs. With a longer list the extra pairs would go unsent, and it panics past MAX_DISPLAYS entries. None of that is modelled.
- `usize` and `u8` overflow: indices are bounded by `deviceCount <= MAX_DISPLAYS`, so `2 * i + 1` stays in the buffer, and `limit - 1` is taken only when `limit >= 1`. No wrap-around can occur, so none is modelled.
- Driver.Max7219.Init: written as `ApplyStartupSettings` followed by `ClearAll`, and `ApplyStartupSettings` as `StartupPowerSettings` followed by `StartupScanSettings`. Together they make the source's five calls in the same order, send the same frames, and stop at the first error as the source's `?` does.
- Commented-out code and the segment and matrix bit-layout documentation, which this layer never interprets.
