/** The MAX7219 chain driver: a reusable transmit buffer, the configured chain length and the
    bus it writes to. Every operation is built on two primitives, "write one device, no-op the
    rest" and "write every device from a list of pairs"; each transfer is one frame on the bus. */
module Driver {
  import opened Base
  import opened Errors
  import opened Registers
  import opened Frames

  /** What the bus has seen, as far as the driver's contracts are concerned: every frame handed
      to it, whether each transfer was accepted, and the frame last placed in the buffer. */
  datatype Trace = Trace(log: seq<Frame>, accepted: seq<bool>, last: Frame)

  /** The outcomes of `n` transfers that stop at the first refusal: all but the last were
      accepted, and the last one was accepted iff `ok`. */
  function Outcomes(n: nat, ok: bool): (os: seq<bool>)
    ensures |os| == n
    ensures forall t :: 0 <= t < n ==> os[t] == (t < n - 1 || ok)
  {
    seq(n, t => t < n - 1 || ok)
  }

  /** A run of successful transfers followed by a run that ends with `ok` is one run ending with `ok`. */
  lemma OutcomesAppend(i: nat, m: nat, ok: bool)
    requires m > 0 || ok
    ensures Outcomes(i, true) + Outcomes(m, ok) == Outcomes(i + m, ok)
  {
    var xs, ys := Outcomes(i, true) + Outcomes(m, ok), Outcomes(i + m, ok);
    forall t | 0 <= t < i + m
      ensures xs[t] == ys[t]
    {
      if t >= i {
        assert xs[t] == Outcomes(m, ok)[t - i];
      }
    }
  }

  /** The transfers that took the bus from `t0` to `t1` are a prefix of `frames`, handed over in
      order. Every one of them but the last was accepted. The last was accepted iff `r` is Ok, and
      then all of `frames` went out. A refused transfer ends the sequence with `Err(Spi)`. */
  predicate Sent(t0: Trace, t1: Trace, frames: seq<Frame>, r: Status) {
    var n := |t1.log| - |t0.log|;
    && 0 <= n <= |frames|
    && t1.log == t0.log + frames[..n]
    && t1.accepted == t0.accepted + Outcomes(n, r == Ok)
    && t1.last == (if n == 0 then t0.last else frames[n - 1])
    && (r == Ok || r == Err(Spi))
    && (r == Ok ==> n == |frames|)
    && (r == Err(Spi) ==> n > 0)
  }

  /** A sequence over a prefix of `frames` that ended in a refusal is also a sequence over all of `frames`. */
  lemma SentPrefix(a: Trace, c: Trace, frames: seq<Frame>, j: nat, r: Status)
    requires j <= |frames| && Sent(a, c, frames[..j], r) && r != Ok
    ensures Sent(a, c, frames, r)
  {
    var n := |c.log| - |a.log|;
    assert frames[..j][..n] == frames[..n];
    assert c.last == frames[..j][n - 1] == frames[n - 1];
  }

  /** Transfers `frames[..i]` succeeded and transfers `frames[i..j]` followed: together they are
      transfers `frames[..j]`, and a failure among the second ones ends the whole sequence. */
  lemma SentContinue(a: Trace, b: Trace, c: Trace, frames: seq<Frame>, i: nat, j: nat, r: Status)
    requires i <= j <= |frames|
    requires Sent(a, b, frames[..i], Ok) && Sent(b, c, frames[i..j], r)
    ensures Sent(a, c, frames[..j], r)
    ensures r != Ok ==> Sent(a, c, frames, r)
  {
    SentAppend(a, b, c, frames[..i], frames[i..j], r);
    assert frames[..i] + frames[i..j] == frames[..j];
    if r != Ok {
      SentPrefix(a, c, frames, j, r);
    }
  }

  /** One more transfer, of `frames[i]`, after `frames[..i]` succeeded; `r` is its verdict. */
  lemma SentStep(a: Trace, b: Trace, c: Trace, frames: seq<Frame>, i: nat, r: Status)
    requires i < |frames|
    requires Sent(a, b, frames[..i], Ok)
    requires c == Trace(b.log + [frames[i]], b.accepted + [r == Ok], frames[i]) && (r == Ok || r == Err(Spi))
    ensures Sent(a, c, frames[..i + 1], r)
    ensures r != Ok ==> Sent(a, c, frames, r)
  {
    assert frames[i..i + 1] == [frames[i]];
    assert Outcomes(1, r == Ok) == [r == Ok];
    SentContinue(a, b, c, frames, i, i + 1, r);
  }

  /** All of `xs` was transferred, then transfers of `ys` followed: together they are transfers of `xs + ys`. */
  lemma SentAppend(a: Trace, b: Trace, c: Trace, xs: seq<Frame>, ys: seq<Frame>, r: Status)
    requires Sent(a, b, xs, Ok) && Sent(b, c, ys, r)
    ensures Sent(a, c, xs + ys, r)
  {
    var n := |xs|;
    var m := |c.log| - |b.log|;
    assert xs[..n] == xs;
    PrefixOfAppend(a.log, xs, ys, m);
    OutcomesAppend(n, m, r == Ok);
    assert c.accepted == a.accepted + Outcomes(n + m, r == Ok) by {
      assert c.accepted == (a.accepted + Outcomes(n, true)) + Outcomes(m, r == Ok);
    }
    if m > 0 {
      assert c.last == ys[m - 1] == (xs + ys)[n + m - 1];
    }
  }

  /** Appending all of `xs` and then part of `ys` is appending that much of `xs + ys`. */
  lemma PrefixOfAppend<T>(p: seq<T>, xs: seq<T>, ys: seq<T>, m: nat)
    requires m <= |ys|
    ensures (p + xs) + ys[..m] == p + (xs + ys)[..|xs| + m]
  {
    assert (xs + ys)[..|xs| + m] == xs + ys[..m];
  }

  /** Transfers of `xs` ended with `r1`; transfers of `ys` followed only if `r1` is Ok, ending with `r`.
      Together they are transfers of `xs + ys` ending with `r`. */
  lemma SentThen(a: Trace, b: Trace, c: Trace, xs: seq<Frame>, ys: seq<Frame>, r1: Status, r: Status)
    requires Sent(a, b, xs, r1)
    requires r1 == Ok ==> Sent(b, c, ys, r)
    requires r1 != Ok ==> c == b && r == r1
    ensures Sent(a, c, xs + ys, r)
  {
    if r1 == Ok {
      SentAppend(a, b, c, xs, ys, r);
    } else {
      var n := |b.log| - |a.log|;
      assert (xs + ys)[..n] == xs[..n];
      assert c.last == xs[n - 1] == (xs + ys)[n - 1];
    }
  }

  /** A buffer holding frame `f` followed by zeros, read byte by byte and as the `|f|`-byte prefix that is sent. */
  lemma PaddedFrame(buf: seq<u8>, f: Frame)
    requires |f| <= |buf| && buf == f + Zeros(|buf| - |f|)
    ensures buf[..|f|] == f
    ensures forall k :: 0 <= k < |buf| ==> buf[k] == if k < |f| then f[k] else 0
  {
  }

  /** The transport: it accepts one frame per transfer and either succeeds or fails. */
  class SpiBus {
    /** Every frame handed to the bus, in order, including one the bus then failed to transmit. */
    var log: seq<Frame>
    /** For each frame of `log`, whether the bus accepted it. */
    var accepted: seq<bool>

    constructor ()
      ensures log == [] && accepted == []
    {
      log := [];
      accepted := [];
    }

    /** One atomic transfer; whether it succeeds is outside the driver's control, and the verdict
        returned is the one recorded. */
    method Write(frame: Frame) returns (ok: bool)
      modifies this
      ensures log == old(log) + [frame]
      ensures accepted == old(accepted) + [ok]
    {
      ok := *;
      log := log + [frame];
      accepted := accepted + [ok];
    }
  }

  class Max7219 {
    const spi: SpiBus
    /** Two bytes per supported device; each transfer sends its first `2 * deviceCount` bytes. */
    const buffer: array<u8>
    var deviceCount: nat
    /** The frame most recently placed in the buffer (empty before the first transfer). */
    ghost var lastFrame: Frame

    /** The buffer has room for every supported device and holds `lastFrame` followed by zeros. */
    ghost predicate Valid()
      reads this, buffer
    {
      && buffer.Length == 2 * MAX_DISPLAYS
      && deviceCount <= MAX_DISPLAYS
      && |lastFrame| <= buffer.Length
      && forall k :: 0 <= k < buffer.Length ==> buffer[k] == if k < |lastFrame| then lastFrame[k] else 0
    }

    /** The bus's history and the frame in the buffer, as one value. */
    ghost function Snapshot(): Trace
      reads this, spi
    {
      Trace(spi.log, spi.accepted, lastFrame)
    }

    /** The call handed `frames` to the bus as `Sent` describes; if it transferred anything, the
        buffer now holds the last frame transferred, otherwise it is untouched. */
    twostate predicate SentFrames(frames: seq<Frame>, r: Status)
      reads this, spi
    {
      Sent(Trace(old(spi.log), old(spi.accepted), old(lastFrame)), Snapshot(), frames, r)
    }

    /** The call handed the single frame `f` to the bus, which now sits in the buffer; `r` is Ok if
        the bus accepted it and `Err(Spi)` if it refused it. */
    twostate predicate Transferred(f: Frame, r: Status)
      reads this, spi
    {
      && spi.log == old(spi.log) + [f]
      && spi.accepted == old(spi.accepted) + [r == Ok]
      && lastFrame == f
      && (r == Ok || r == Err(Spi))
    }

    /** The call failed its argument check with `e`: nothing was transferred and the buffer is untouched. */
    twostate predicate Rejected(e: Error, r: Status)
      reads this, spi
    {
      r == Err(e) && spi.log == old(spi.log) && spi.accepted == old(spi.accepted) && lastFrame == old(lastFrame)
    }

    /** The call wrote `data` to register `reg` of device `i` alone, or rejected the index. */
    twostate predicate DeviceWritten(i: nat, reg: Register, data: u8, r: Status)
      reads this, spi
    {
      if i < deviceCount then Transferred(OneDeviceFrame(deviceCount, i, Addr(reg), data), r)
      else Rejected(InvalidDeviceIndex, r)
    }

    /** The call wrote `data` to register `reg` of every device in one transfer. */
    twostate predicate Broadcast(reg: Register, data: u8, r: Status)
      reads this, spi
    {
      Transferred(BroadcastFrame(deviceCount, Addr(reg), data), r)
    }

    /** A driver for a single device; nothing is transferred. */
    constructor (spi: SpiBus)
      ensures Valid() && fresh(buffer)
      ensures this.spi == spi && deviceCount == 1
      ensures buffer[..] == Zeros(2 * MAX_DISPLAYS) && lastFrame == []
    {
      this.spi := spi;
      buffer := new u8[2 * MAX_DISPLAYS](_ => 0);
      deviceCount := 1;
      lastFrame := [];
    }

    function DeviceCount(): (n: nat)
      requires Valid()
      reads this, buffer
      ensures n == deviceCount && n <= MAX_DISPLAYS
    {
      deviceCount
    }

    /** Sets the chain length. Only lengths above MAX_DISPLAYS are refused; 0 is accepted. */
    method WithDeviceCount(count: nat) returns (r: Status)
      requires Valid()
      modifies this`deviceCount
      ensures Valid()
      ensures count > MAX_DISPLAYS ==> r == Err(InvalidDeviceCount) && deviceCount == old(deviceCount)
      ensures count <= MAX_DISPLAYS ==> r == Ok && deviceCount == count
    {
      if count > MAX_DISPLAYS {
        return Err(InvalidDeviceCount);
      }
      deviceCount := count;
      r := Ok;
    }

    /** Writes `[Addr(register), data]` to device `deviceIndex` and the no-op pair to every other device. */
    method WriteDeviceRegister(deviceIndex: nat, register: Register, data: u8) returns (r: Status)
      requires Valid()
      modifies this`lastFrame, buffer, spi
      ensures Valid()
      ensures DeviceWritten(deviceIndex, register, data, r)
      ensures deviceIndex < deviceCount ==> buffer[..] == OneDeviceFrame(MAX_DISPLAYS, deviceIndex, Addr(register), data)
    {
      if deviceIndex >= deviceCount {
        return Err(InvalidDeviceIndex);
      }

      forall k | 0 <= k < buffer.Length {
        buffer[k] := 0;
      }

      var offset := deviceIndex * 2;
      buffer[offset] := Addr(register);
      buffer[offset + 1] := data;

      ghost var frame := OneDeviceFrame(deviceCount, deviceIndex, Addr(register), data);
      OneDeviceFramePrefix(MAX_DISPLAYS, deviceCount, deviceIndex, Addr(register), data);
      assert buffer[..] == OneDeviceFrame(MAX_DISPLAYS, deviceIndex, Addr(register), data);
      PaddedFrame(buffer[..], frame);
      lastFrame := frame;

      var ok := spi.Write(buffer[..deviceCount * 2]);
      r := if ok then Ok else Err(Spi);
    }

    /** Writes pair k of `ops` to device k, one pair per configured device, in one transfer. */
    method WriteAllRegisters(ops: seq<(Register, u8)>) returns (r: Status)
      requires Valid()
      requires |ops| == deviceCount
      modifies this`lastFrame, buffer, spi
      ensures Valid()
      ensures Transferred(OpsFrame(ops), r)
    {
      forall k | 0 <= k < buffer.Length {
        buffer[k] := 0;
      }

      for i := 0 to |ops|
        modifies buffer
        invariant forall k :: 0 <= k < i ==> buffer[2 * k] == Addr(ops[k].0) && buffer[2 * k + 1] == ops[k].1
        invariant forall k :: 2 * i <= k < buffer.Length ==> buffer[k] == 0
      {
        var (reg, data) := ops[i];
        var offset := i * 2;
        buffer[offset] := Addr(reg);
        buffer[offset + 1] := data;
      }
      PairsFrame(buffer[..], ops);
      var len := deviceCount * 2;
      lastFrame := OpsFrame(ops);
      var ok := spi.Write(buffer[..len]);
      r := if ok then Ok else Err(Spi);
    }

    method PowerOn() returns (r: Status)
      requires Valid()
      modifies this`lastFrame, buffer, spi
      ensures Valid()
      ensures Broadcast(Shutdown, 0x01, r)
    {
      var ops := Uniform(MAX_DISPLAYS, Shutdown, 0x01);
      UniformIsBroadcast(MAX_DISPLAYS, deviceCount, Shutdown, 0x01);
      r := WriteAllRegisters(ops[..deviceCount]);
    }

    method PowerOff() returns (r: Status)
      requires Valid()
      modifies this`lastFrame, buffer, spi
      ensures Valid()
      ensures Broadcast(Shutdown, 0x00, r)
    {
      var ops := Uniform(MAX_DISPLAYS, Shutdown, 0x00);
      UniformIsBroadcast(MAX_DISPLAYS, deviceCount, Shutdown, 0x00);
      r := WriteAllRegisters(ops[..deviceCount]);
    }

    method PowerOnDevice(deviceIndex: nat) returns (r: Status)
      requires Valid()
      modifies this`lastFrame, buffer, spi
      ensures Valid()
      ensures DeviceWritten(deviceIndex, Shutdown, 0x01, r)
    {
      r := WriteDeviceRegister(deviceIndex, Shutdown, 0x01);
    }

    method PowerOffDevice(deviceIndex: nat) returns (r: Status)
      requires Valid()
      modifies this`lastFrame, buffer, spi
      ensures Valid()
      ensures DeviceWritten(deviceIndex, Shutdown, 0x00, r)
    {
      r := WriteDeviceRegister(deviceIndex, Shutdown, 0x00);
    }

    method TestDevice(deviceIndex: nat, enable: bool) returns (r: Status)
      requires Valid()
      modifies this`lastFrame, buffer, spi
      ensures Valid()
      ensures DeviceWritten(deviceIndex, DisplayTest, if enable then 0x01 else 0x00, r)
    {
      var data: u8 := if enable then 0x01 else 0x00;
      r := WriteDeviceRegister(deviceIndex, DisplayTest, data);
    }

    method TestAll(enable: bool) returns (r: Status)
      requires Valid()
      modifies this`lastFrame, buffer, spi
      ensures Valid()
      ensures Broadcast(DisplayTest, if enable then 0x01 else 0x00, r)
    {
      var data: u8 := if enable then 0x01 else 0x00;
      var ops := Uniform(MAX_DISPLAYS, DisplayTest, data);
      UniformIsBroadcast(MAX_DISPLAYS, deviceCount, DisplayTest, data);
      r := WriteAllRegisters(ops[..deviceCount]);
    }

    /** Scans digits 0 to `limit - 1`; the chip register takes the zero-based `limit - 1`. */
    method SetDeviceScanLimit(deviceIndex: nat, limit: u8) returns (r: Status)
      requires Valid()
      modifies this`lastFrame, buffer, spi
      ensures Valid()
      ensures !(1 <= limit <= 8) ==> Rejected(InvalidScanLimit, r)
      ensures 1 <= limit <= 8 ==> DeviceWritten(deviceIndex, ScanLimit, limit - 1, r)
    {
      if !(1 <= limit <= 8) {
        return Err(InvalidScanLimit);
      }
      r := WriteDeviceRegister(deviceIndex, ScanLimit, limit - 1);
    }

    method SetScanLimitAll(limit: u8) returns (r: Status)
      requires Valid()
      modifies this`lastFrame, buffer, spi
      ensures Valid()
      ensures !(1 <= limit <= 8) ==> Rejected(InvalidScanLimit, r)
      ensures 1 <= limit <= 8 ==> Broadcast(ScanLimit, limit - 1, r)
    {
      if !(1 <= limit <= 8) {
        return Err(InvalidScanLimit);
      }
      var val := limit - 1;
      var ops := Uniform(MAX_DISPLAYS, ScanLimit, val);
      UniformIsBroadcast(MAX_DISPLAYS, deviceCount, ScanLimit, val);
      r := WriteAllRegisters(ops[..deviceCount]);
      // Restates `val` for the solver; without it the postcondition costs many times more.
      assert val == limit - 1;
    }

    method SetDeviceDecodeMode(deviceIndex: nat, mode: DecodeMode) returns (r: Status)
      requires Valid()
      modifies this`lastFrame, buffer, spi
      ensures Valid()
      ensures DeviceWritten(deviceIndex, Register.DecodeMode, mode.Byte(), r)
    {
      r := WriteDeviceRegister(deviceIndex, Register.DecodeMode, mode.Byte());
    }

    method SetDecodeModeAll(mode: DecodeMode) returns (r: Status)
      requires Valid()
      modifies this`lastFrame, buffer, spi
      ensures Valid()
      ensures Broadcast(Register.DecodeMode, mode.Byte(), r)
    {
      var byte := mode.Byte();
      var ops := Uniform(MAX_DISPLAYS, Register.DecodeMode, byte);
      UniformIsBroadcast(MAX_DISPLAYS, deviceCount, Register.DecodeMode, byte);
      r := WriteAllRegisters(ops[..deviceCount]);
    }

    /** Writes 0 to digit 0 through digit 7 of one device, one transfer per digit, stopping at the first error. */
    method ClearDisplay(deviceIndex: nat) returns (r: Status)
      requires Valid()
      modifies this`lastFrame, buffer, spi
      ensures Valid()
      ensures deviceIndex >= deviceCount ==> Rejected(InvalidDeviceIndex, r)
      ensures deviceIndex < deviceCount ==> SentFrames(ClearDisplayFrames(deviceCount, deviceIndex), r)
    {
      ghost var start := Snapshot();
      var digits := Digits();
      for k := 0 to |digits|
        invariant k > 0 ==> deviceIndex < deviceCount
        invariant Valid()
        invariant k == 0 ==> Snapshot() == start
        invariant deviceIndex < deviceCount ==> Sent(start, Snapshot(), ClearDisplayFrames(deviceCount, deviceIndex)[..k], Ok)
      {
        ghost var before := Snapshot();
        r := WriteDeviceRegister(deviceIndex, digits[k], 0x00);
        if deviceIndex < deviceCount {
          ClearDisplayFramesAt(deviceCount, deviceIndex, k);
          SentStep(start, before, Snapshot(), ClearDisplayFrames(deviceCount, deviceIndex), k, r);
        }
        if r.Err? {
          return;
        }
      }
      r := Ok;
    }

    /** Writes 0 to digit 0 through digit 7 of every device, one transfer per digit, stopping at the first error. */
    method ClearAll() returns (r: Status)
      requires Valid()
      modifies this`lastFrame, buffer, spi
      ensures Valid()
      ensures SentFrames(ClearAllFrames(deviceCount), r)
    {
      ghost var start := Snapshot();
      var digits := Digits();
      ghost var frames := ClearAllFrames(deviceCount);
      for k := 0 to |digits|
        invariant Valid()
        invariant Sent(start, Snapshot(), frames[..k], Ok)
      {
        ghost var before := Snapshot();
        var ops := Uniform(MAX_DISPLAYS, digits[k], 0x00);
        UniformIsBroadcast(MAX_DISPLAYS, deviceCount, digits[k], 0x00);
        r := WriteAllRegisters(ops[..deviceCount]);
        ClearAllFramesAt(deviceCount, k);
        SentStep(start, before, Snapshot(), frames, k, r);
        if r.Err? {
          return;
        }
      }
      r := Ok;
    }

    /** Writes a raw segment (or matrix row) pattern to digit register `digit` of one device. */
    method WriteRawDigit(deviceIndex: nat, digit: u8, value: u8) returns (r: Status)
      requires Valid()
      modifies this`lastFrame, buffer, spi
      ensures Valid()
      ensures digit >= NUM_DIGITS ==> Rejected(InvalidDigit, r)
      ensures digit < NUM_DIGITS ==> DeviceWritten(deviceIndex, Digits()[digit], value, r)
    {
      var found := TryDigit(digit);
      if found.Failure? {
        return Err(found.error);
      }
      TryDigitMatchesDigits(digit);
      r := WriteDeviceRegister(deviceIndex, found.value, value);
    }

    method SetIntensity(deviceIndex: nat, intensity: u8) returns (r: Status)
      requires Valid()
      modifies this`lastFrame, buffer, spi
      ensures Valid()
      ensures intensity > 0x0F ==> Rejected(InvalidIntensity, r)
      ensures intensity <= 0x0F ==> DeviceWritten(deviceIndex, Intensity, intensity, r)
    {
      if intensity > 0x0F {
        return Err(InvalidIntensity);
      }
      r := WriteDeviceRegister(deviceIndex, Intensity, intensity);
    }

    method SetIntensityAll(intensity: u8) returns (r: Status)
      requires Valid()
      modifies this`lastFrame, buffer, spi
      ensures Valid()
      ensures intensity > 0x0F ==> Rejected(InvalidIntensity, r)
      ensures intensity <= 0x0F ==> Broadcast(Intensity, intensity, r)
    {
      if intensity > 0x0F {
        return Err(InvalidIntensity);
      }
      var ops := Uniform(MAX_DISPLAYS, Intensity, intensity);
      UniformIsBroadcast(MAX_DISPLAYS, deviceCount, Intensity, intensity);
      r := WriteAllRegisters(ops[..deviceCount]);
    }

    /** The first two start-up settings: power on, then test mode off; two transfers to all
        devices, stopping at the first error. */
    method StartupPowerSettings() returns (r: Status)
      requires Valid()
      modifies this`lastFrame, buffer, spi
      ensures Valid()
      ensures SentFrames(SettingFrames(deviceCount)[..2], r)
    {
      ghost var settings := SettingFrames(deviceCount)[..2];
      ghost var start := Snapshot();
      assert settings[..0] == [];

      r := PowerOn();
      SentStep(start, start, Snapshot(), settings, 0, r);
      if r.Err? {
        return;
      }

      ghost var t1 := Snapshot();
      r := TestAll(false);
      SentStep(start, t1, Snapshot(), settings, 1, r);
      assert settings[..2] == settings;
    }

    /** The last two start-up settings: scan all eight digits, then no decoding; two transfers to
        all devices, stopping at the first error. */
    method StartupScanSettings() returns (r: Status)
      requires Valid()
      modifies this`lastFrame, buffer, spi
      ensures Valid()
      ensures SentFrames(SettingFrames(deviceCount)[2..], r)
    {
      ghost var settings := SettingFrames(deviceCount)[2..];
      ghost var start := Snapshot();
      assert settings[..0] == [];

      r := SetScanLimitAll(NUM_DIGITS);
      SentStep(start, start, Snapshot(), settings, 0, r);
      if r.Err? {
        return;
      }

      ghost var t1 := Snapshot();
      r := SetDecodeModeAll(DecodeMode.NoDecode);
      SentStep(start, t1, Snapshot(), settings, 1, r);
      assert settings[..2] == settings;
    }

    /** The configuration half of start-up: power on, test mode off, scan all eight digits,
        no decoding; four transfers to all devices, stopping at the first error. */
    method ApplyStartupSettings() returns (r: Status)
      requires Valid()
      modifies this`lastFrame, buffer, spi
      ensures Valid()
      ensures SentFrames(SettingFrames(deviceCount), r)
    {
      ghost var settings := SettingFrames(deviceCount);
      ghost var start := Snapshot();
      r := StartupPowerSettings();
      ghost var middle, r1 := Snapshot(), r;
      if r == Ok {
        r := StartupScanSettings();
      }
      SentThen(start, middle, Snapshot(), settings[..2], settings[2..], r1, r);
      assert settings[..2] + settings[2..] == settings;
    }

    /** Start-up: the settings, then clearing every digit of every device; twelve transfers to all
        devices, stopping at the first error. */
    method Init() returns (r: Status)
      requires Valid()
      modifies this`lastFrame, buffer, spi
      ensures Valid()
      ensures SentFrames(InitFrames(deviceCount), r)
    {
      ghost var start := Snapshot();
      r := ApplyStartupSettings();
      ghost var middle, r1 := Snapshot(), r;
      if r == Ok {
        r := ClearAll();
      }
      SentThen(start, middle, Snapshot(), SettingFrames(deviceCount), ClearAllFrames(deviceCount), r1, r);
    }
  }
}
