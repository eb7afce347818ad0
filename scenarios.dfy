/** The driver's unit tests replayed on the model, one method per test, in the order the tests
    are written. Each builds a fresh driver over a fresh bus and performs the test's calls. It
    states what the test checks: the results and the device count, and for every test that
    expects transfers, the frames the bus received, byte by byte, with the bus's verdicts. A
    transport failure is allowed wherever the bus is used: the result then reports it as
    `Err(Spi)`, and a sequence of transfers stops there. */
module Scenarios {
  import opened Base
  import opened Errors
  import opened Registers
  import opened Frames
  import opened Driver

  /** A one-device frame is pinned down by its bytes: the pair at device `i`, zeros elsewhere. */
  lemma OneDeviceBytes(count: nat, i: nat, addr: u8, data: u8, bytes: Frame)
    requires i < count && |bytes| == 2 * count
    requires bytes[2 * i] == addr && bytes[2 * i + 1] == data
    requires forall k :: 0 <= k < |bytes| && k != 2 * i && k != 2 * i + 1 ==> bytes[k] == 0
    ensures OneDeviceFrame(count, i, addr, data) == bytes
  {
  }

  /** A broadcast frame is pinned down by its bytes: the address at even positions, the data at odd ones. */
  lemma BroadcastBytes(count: nat, addr: u8, data: u8, bytes: Frame)
    requires |bytes| == 2 * count
    requires forall j :: 0 <= j < |bytes| ==> bytes[j] == if j % 2 == 0 then addr else data
    ensures BroadcastFrame(count, addr, data) == bytes
  {
  }

  /** A new driver reports one device and transfers nothing. */
  method NewDriver() returns (count: nat, log: seq<Frame>)
    ensures count == 1 && log == []
  {
    var spi := new SpiBus();
    var driver := new Max7219(spi);
    count := driver.DeviceCount();
    log := spi.log;
  }

  /** A count of four is accepted and reported, and nothing is transferred. */
  method AcceptedDeviceCount() returns (r: Status, count: nat, log: seq<Frame>)
    ensures r == Ok && count == 4 && log == []
  {
    var spi := new SpiBus();
    var driver := new Max7219(spi);
    r := driver.WithDeviceCount(4);
    count := driver.DeviceCount();
    log := spi.log;
  }

  /** One more than the maximum is refused; the model's driver keeps its count of one. */
  method RefusedDeviceCount() returns (r: Status, count: nat, log: seq<Frame>)
    ensures r == Err(InvalidDeviceCount) && count == 1 && log == []
  {
    var spi := new SpiBus();
    var driver := new Max7219(spi);
    r := driver.WithDeviceCount(MAX_DISPLAYS + 1);
    count := driver.DeviceCount();
    log := spi.log;
  }

  /** Powering on the single device sends `0C 01`. */
  method PowerOnSingle() returns (r: Status, log: seq<Frame>, accepted: seq<bool>)
    ensures r == Ok || r == Err(Spi)
    ensures accepted == [r == Ok]
    ensures log == [[0x0C, 0x01]]
  {
    var spi := new SpiBus();
    var driver := new Max7219(spi);
    r := driver.PowerOn();
    log, accepted := spi.log, spi.accepted;
    BroadcastBytes(1, Addr(Shutdown), 0x01, [0x0C, 0x01]);
  }

  /** Powering off the single device sends `0C 00`. */
  method PowerOffSingle() returns (r: Status, log: seq<Frame>, accepted: seq<bool>)
    ensures r == Ok || r == Err(Spi)
    ensures accepted == [r == Ok]
    ensures log == [[0x0C, 0x00]]
  {
    var spi := new SpiBus();
    var driver := new Max7219(spi);
    r := driver.PowerOff();
    log, accepted := spi.log, spi.accepted;
    BroadcastBytes(1, Addr(Shutdown), 0x00, [0x0C, 0x00]);
  }

  /** Powering on device 0 of a one-device chain sends `0C 01`. */
  method PowerOnDeviceSingle() returns (r: Status, log: seq<Frame>, accepted: seq<bool>)
    ensures r == Ok || r == Err(Spi)
    ensures accepted == [r == Ok]
    ensures log == [[0x0C, 0x01]]
  {
    var spi := new SpiBus();
    var driver := new Max7219(spi);
    r := driver.PowerOnDevice(0);
    log, accepted := spi.log, spi.accepted;
    OneDeviceBytes(1, 0, Addr(Shutdown), 0x01, [0x0C, 0x01]);
  }

  /** Powering on a chain of three sends the pair Shutdown = 1 to each of them in one frame. */
  method PowerOnThreeDevices() returns (r: Status, log: seq<Frame>, accepted: seq<bool>)
    ensures r == Ok || r == Err(Spi)
    ensures accepted == [r == Ok]
    ensures log == [[0x0C, 0x01, 0x0C, 0x01, 0x0C, 0x01]]
  {
    var spi := new SpiBus();
    var driver := new Max7219(spi);
    var _ := driver.WithDeviceCount(3);
    r := driver.PowerOn();
    log, accepted := spi.log, spi.accepted;
    BroadcastBytes(3, Addr(Shutdown), 0x01, [0x0C, 0x01, 0x0C, 0x01, 0x0C, 0x01]);
  }

  /** Powering off device 2 of four: the third pair is the shutdown write, the others are no-ops. */
  method PowerOffThirdOfFour() returns (r: Status, log: seq<Frame>, accepted: seq<bool>)
    ensures r == Ok || r == Err(Spi)
    ensures accepted == [r == Ok]
    ensures log == [[0x00, 0x00, 0x00, 0x00, 0x0C, 0x00, 0x00, 0x00]]
  {
    var spi := new SpiBus();
    var driver := new Max7219(spi);
    var _ := driver.WithDeviceCount(4);
    r := driver.PowerOffDevice(2);
    log, accepted := spi.log, spi.accepted;
    OneDeviceBytes(4, 2, Addr(Shutdown), 0x00, [0x00, 0x00, 0x00, 0x00, 0x0C, 0x00, 0x00, 0x00]);
  }

  /** Device 1 of a one-device chain does not exist: both power calls are refused before any transfer. */
  method PowerMissingDevice() returns (r1: Status, r2: Status, log: seq<Frame>)
    ensures r1 == Err(InvalidDeviceIndex) && r2 == Err(InvalidDeviceIndex)
    ensures log == []
  {
    var spi := new SpiBus();
    var driver := new Max7219(spi);
    var _ := driver.WithDeviceCount(1);
    r1 := driver.PowerOnDevice(1);
    r2 := driver.PowerOffDevice(1);
    log := spi.log;
  }

  /** Test mode on for a chain of four: one frame with the test-on pair for each device. */
  method TestAllOfFour() returns (r: Status, log: seq<Frame>, accepted: seq<bool>)
    ensures r == Ok || r == Err(Spi)
    ensures accepted == [r == Ok]
    ensures log == [[0x0F, 0x01, 0x0F, 0x01, 0x0F, 0x01, 0x0F, 0x01]]
  {
    var spi := new SpiBus();
    var driver := new Max7219(spi);
    var _ := driver.WithDeviceCount(4);
    r := driver.TestAll(true);
    log, accepted := spi.log, spi.accepted;
    BroadcastBytes(4, Addr(DisplayTest), 0x01, [0x0F, 0x01, 0x0F, 0x01, 0x0F, 0x01, 0x0F, 0x01]);
  }

  /** Test mode off for the single device sends `0F 00`. */
  method TestAllOff() returns (r: Status, log: seq<Frame>, accepted: seq<bool>)
    ensures r == Ok || r == Err(Spi)
    ensures accepted == [r == Ok]
    ensures log == [[0x0F, 0x00]]
  {
    var spi := new SpiBus();
    var driver := new Max7219(spi);
    r := driver.TestAll(false);
    log, accepted := spi.log, spi.accepted;
    BroadcastBytes(1, Addr(DisplayTest), 0x00, [0x0F, 0x00]);
  }

  /** Scan limit 4 for every device is sent as 3. */
  method ScanLimitAllValid() returns (r: Status, log: seq<Frame>, accepted: seq<bool>)
    ensures r == Ok || r == Err(Spi)
    ensures accepted == [r == Ok]
    ensures log == [[0x0B, 0x03]]
  {
    var spi := new SpiBus();
    var driver := new Max7219(spi);
    r := driver.SetScanLimitAll(4);
    log, accepted := spi.log, spi.accepted;
    BroadcastBytes(1, 0x0B, 0x03, [0x0B, 0x03]);
  }

  /** Scan limit 0 is refused without a transfer. */
  method ScanLimitAllTooLow() returns (r: Status, log: seq<Frame>)
    ensures r == Err(InvalidScanLimit)
    ensures log == []
  {
    var spi := new SpiBus();
    var driver := new Max7219(spi);
    r := driver.SetScanLimitAll(0);
    log := spi.log;
  }

  /** Scan limit 9 is refused without a transfer. */
  method ScanLimitAllTooHigh() returns (r: Status, log: seq<Frame>)
    ensures r == Err(InvalidScanLimit)
    ensures log == []
  {
    var spi := new SpiBus();
    var driver := new Max7219(spi);
    r := driver.SetScanLimitAll(9);
    log := spi.log;
  }

  /** Decoding every digit on a chain of four: one frame with the pair `09 FF` for each device. */
  method DecodeAllOfFour() returns (r: Status, log: seq<Frame>, accepted: seq<bool>)
    ensures r == Ok || r == Err(Spi)
    ensures accepted == [r == Ok]
    ensures log == [[0x09, 0xFF, 0x09, 0xFF, 0x09, 0xFF, 0x09, 0xFF]]
  {
    var spi := new SpiBus();
    var driver := new Max7219(spi);
    var _ := driver.WithDeviceCount(4);
    r := driver.SetDecodeModeAll(AllDigits);
    log, accepted := spi.log, spi.accepted;
    BroadcastBytes(4, 0x09, 0xFF, [0x09, 0xFF, 0x09, 0xFF, 0x09, 0xFF, 0x09, 0xFF]);
  }

  /** The eight frames that clear a single device, digit 0 first, as listed byte by byte. */
  const SingleDeviceClear: seq<Frame> :=
    [[0x01, 0x00], [0x02, 0x00], [0x03, 0x00], [0x04, 0x00],
     [0x05, 0x00], [0x06, 0x00], [0x07, 0x00], [0x08, 0x00]]

  /** The frames that clear the only device of a one-device chain are the eight frames above. */
  lemma SingleDeviceClearFrames()
    ensures ClearDisplayFrames(1, 0) == SingleDeviceClear
  {
    forall k | 0 <= k < 8
      ensures ClearDisplayFrames(1, 0)[k] == SingleDeviceClear[k]
    {
      OneDeviceBytes(1, 0, k as u8 + 1, 0, SingleDeviceClear[k]);
    }
  }

  /** Clearing the single device: on success exactly the eight frames above, each accepted; on a
      failure a non-empty prefix of them whose last frame is the one the bus refused. */
  method ClearSingleDevice() returns (r: Status, log: seq<Frame>, accepted: seq<bool>)
    ensures r == Ok || r == Err(Spi)
    ensures 0 < |log| <= 8 && log == SingleDeviceClear[..|log|]
    ensures accepted == Outcomes(|log|, r == Ok)
    ensures r == Ok ==> log == SingleDeviceClear
  {
    var spi := new SpiBus();
    var driver := new Max7219(spi);
    r := driver.ClearDisplay(0);
    log, accepted := spi.log, spi.accepted;
    SingleDeviceClearFrames();
  }

  /** Clearing a device that does not exist is refused before any transfer. */
  method ClearMissingDevice() returns (r: Status, log: seq<Frame>)
    ensures r == Err(InvalidDeviceIndex) && log == []
  {
    var spi := new SpiBus();
    var driver := new Max7219(spi);
    r := driver.ClearDisplay(1);
    log := spi.log;
  }

  /** Raw digit 3 of device 0 goes to the Digit3 register: `04 AA`. */
  method RawDigit() returns (r: Status, log: seq<Frame>, accepted: seq<bool>)
    ensures r == Ok || r == Err(Spi)
    ensures accepted == [r == Ok]
    ensures log == [[0x04, 0xAA]]
  {
    var spi := new SpiBus();
    var driver := new Max7219(spi);
    r := driver.WriteRawDigit(0, 3, 0xAA);
    log, accepted := spi.log, spi.accepted;
    OneDeviceBytes(1, 0, Addr(Digits()[3]), 0xAA, [0x04, 0xAA]);
  }

  /** Raw digit 8 is refused without a transfer. */
  method RawDigitInvalid() returns (r: Status, log: seq<Frame>)
    ensures r == Err(InvalidDigit)
    ensures log == []
  {
    var spi := new SpiBus();
    var driver := new Max7219(spi);
    r := driver.WriteRawDigit(0, 8, 0x00);
    log := spi.log;
  }

  /** Intensity 0x0A reaches device 0 unchanged: `0A 0A`. */
  method IntensityValid() returns (r: Status, log: seq<Frame>, accepted: seq<bool>)
    ensures r == Ok || r == Err(Spi)
    ensures accepted == [r == Ok]
    ensures log == [[0x0A, 0x0A]]
  {
    var spi := new SpiBus();
    var driver := new Max7219(spi);
    r := driver.SetIntensity(0, 0x0A);
    log, accepted := spi.log, spi.accepted;
    OneDeviceBytes(1, 0, Addr(Intensity), 0x0A, [0x0A, 0x0A]);
  }

  /** Intensity 0x10 is refused without a transfer. */
  method IntensityInvalid() returns (r: Status, log: seq<Frame>)
    ensures r == Err(InvalidIntensity)
    ensures log == []
  {
    var spi := new SpiBus();
    var driver := new Max7219(spi);
    r := driver.SetIntensity(0, 0x10);
    log := spi.log;
  }

  /** The twelve start-up frames of a single device, as listed byte by byte. */
  const SingleDeviceStartup: seq<Frame> :=
    [[0x0C, 0x01], [0x0F, 0x00], [0x0B, 0x07], [0x09, 0x00]] + SingleDeviceClear

  /** The start-up frames of a one-device chain are the twelve two-byte frames above. */
  lemma SingleDeviceStartupFrames()
    ensures InitFrames(1) == SingleDeviceStartup
  {
    BroadcastBytes(1, 0x0C, 0x01, [0x0C, 0x01]);
    BroadcastBytes(1, 0x0F, 0x00, [0x0F, 0x00]);
    BroadcastBytes(1, 0x0B, 0x07, [0x0B, 0x07]);
    BroadcastBytes(1, 0x09, 0x00, [0x09, 0x00]);
    assert InitFrames(1)[..4] == SingleDeviceStartup[..4];
    forall k | 4 <= k < 12
      ensures InitFrames(1)[k] == SingleDeviceStartup[k]
    {
      BroadcastBytes(1, k as u8 - 3, 0, SingleDeviceStartup[k]);
    }
  }

  /** Start-up of a single device: on success exactly the twelve frames above, each accepted; on a
      failure a non-empty prefix of them whose last frame is the one the bus refused. */
  method StartSingleDevice() returns (r: Status, log: seq<Frame>, accepted: seq<bool>)
    ensures r == Ok || r == Err(Spi)
    ensures 0 < |log| <= 12 && log == SingleDeviceStartup[..|log|]
    ensures accepted == Outcomes(|log|, r == Ok)
    ensures r == Ok ==> log == SingleDeviceStartup
  {
    var spi := new SpiBus();
    var driver := new Max7219(spi);
    r := driver.Init();
    log, accepted := spi.log, spi.accepted;
    SingleDeviceStartupFrames();
  }

  /** Writing Shutdown = 1 to device 0 of two: the pair, then the no-op pair for device 1. */
  method WriteFirstOfTwo() returns (r: Status, log: seq<Frame>, accepted: seq<bool>)
    ensures r == Ok || r == Err(Spi)
    ensures accepted == [r == Ok]
    ensures log == [[0x0C, 0x01, 0x00, 0x00]]
  {
    var spi := new SpiBus();
    var driver := new Max7219(spi);
    var _ := driver.WithDeviceCount(2);
    r := driver.WriteDeviceRegister(0, Shutdown, 0x01);
    log, accepted := spi.log, spi.accepted;
    OneDeviceBytes(2, 0, Addr(Shutdown), 0x01, [0x0C, 0x01, 0x00, 0x00]);
  }

  /** Device 2 of a two-device chain does not exist: the write is refused before any transfer. */
  method WriteMissingOfTwo() returns (r: Status, log: seq<Frame>)
    ensures r == Err(InvalidDeviceIndex)
    ensures log == []
  {
    var spi := new SpiBus();
    var driver := new Max7219(spi);
    var _ := driver.WithDeviceCount(2);
    r := driver.WriteDeviceRegister(2, Shutdown, 0x01);
    log := spi.log;
  }

  /** Writing one pair per device of a two-device chain. */
  method WriteBothDevices() returns (r: Status, log: seq<Frame>, accepted: seq<bool>)
    ensures r == Ok || r == Err(Spi)
    ensures accepted == [r == Ok]
    ensures log == [[0x0A, 0x01, 0x0A, 0x01]]
  {
    var spi := new SpiBus();
    var driver := new Max7219(spi);
    var _ := driver.WithDeviceCount(2);
    var ops := [(Intensity, 0x01), (Intensity, 0x01)];
    r := driver.WriteAllRegisters(ops);
    log, accepted := spi.log, spi.accepted;
    PairsMatch([0x0A, 0x01, 0x0A, 0x01], ops);
  }

  /** Test mode on and then off for device 0: two transfers, `0F 01` and then `0F 00`, each
      result reporting its own transfer. */
  method TestDeviceOnOff() returns (r1: Status, r2: Status, log: seq<Frame>, accepted: seq<bool>)
    ensures (r1 == Ok || r1 == Err(Spi)) && (r2 == Ok || r2 == Err(Spi))
    ensures accepted == [r1 == Ok, r2 == Ok]
    ensures log == [[0x0F, 0x01], [0x0F, 0x00]]
  {
    var spi := new SpiBus();
    var driver := new Max7219(spi);
    r1 := driver.TestDevice(0, true);
    r2 := driver.TestDevice(0, false);
    log, accepted := spi.log, spi.accepted;
    OneDeviceBytes(1, 0, Addr(DisplayTest), 0x01, [0x0F, 0x01]);
    OneDeviceBytes(1, 0, Addr(DisplayTest), 0x00, [0x0F, 0x00]);
  }

  /** Scan limit 4 for device 0 is sent as 3: `0B 03`. */
  method DeviceScanLimit() returns (r: Status, log: seq<Frame>, accepted: seq<bool>)
    ensures r == Ok || r == Err(Spi)
    ensures accepted == [r == Ok]
    ensures log == [[0x0B, 0x03]]
  {
    var spi := new SpiBus();
    var driver := new Max7219(spi);
    r := driver.SetDeviceScanLimit(0, 4);
    log, accepted := spi.log, spi.accepted;
    OneDeviceBytes(1, 0, 0x0B, 0x03, [0x0B, 0x03]);
  }

  /** Scan limits 0 and 9 for device 0 are refused without a transfer. */
  method DeviceScanLimitInvalid() returns (r0: Status, r9: Status, log: seq<Frame>)
    ensures r0 == Err(InvalidScanLimit) && r9 == Err(InvalidScanLimit)
    ensures log == []
  {
    var spi := new SpiBus();
    var driver := new Max7219(spi);
    r0 := driver.SetDeviceScanLimit(0, 0);
    r9 := driver.SetDeviceScanLimit(0, 9);
    log := spi.log;
  }

  /** Decoding digits 0 to 3 on the single device sends `09 0F`. */
  method DecodeLowDigits() returns (r: Status, log: seq<Frame>, accepted: seq<bool>)
    ensures r == Ok || r == Err(Spi)
    ensures accepted == [r == Ok]
    ensures log == [[0x09, 0x0F]]
  {
    var spi := new SpiBus();
    var driver := new Max7219(spi);
    r := driver.SetDeviceDecodeMode(0, Digits0To3);
    log, accepted := spi.log, spi.accepted;
    OneDeviceBytes(1, 0, 0x09, 0x0F, [0x09, 0x0F]);
  }

  /** Intensity 5 for a chain of two: one frame with `0A 05` for each device. */
  method IntensityAllOfTwo() returns (r: Status, log: seq<Frame>, accepted: seq<bool>)
    ensures r == Ok || r == Err(Spi)
    ensures accepted == [r == Ok]
    ensures log == [[0x0A, 0x05, 0x0A, 0x05]]
  {
    var spi := new SpiBus();
    var driver := new Max7219(spi);
    var _ := driver.WithDeviceCount(2);
    r := driver.SetIntensityAll(0x05);
    log, accepted := spi.log, spi.accepted;
    BroadcastBytes(2, Addr(Intensity), 0x05, [0x0A, 0x05, 0x0A, 0x05]);
  }

  /** Intensity 0x10 for every device is refused without a transfer. */
  method IntensityAllInvalid() returns (r: Status, log: seq<Frame>)
    ensures r == Err(InvalidIntensity)
    ensures log == []
  {
    var spi := new SpiBus();
    var driver := new Max7219(spi);
    r := driver.SetIntensityAll(0x10);
    log := spi.log;
  }
}
