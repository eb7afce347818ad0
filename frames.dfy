/** The byte frames the driver hands to the bus, as functions of the chain length and the
    operation's arguments. Pair k of a frame (bytes 2k and 2k+1) is the register address and
    data meant for device k, device 0 being the one furthest from the controller. */
module Frames {
  import opened Base
  import opened Registers

  type Frame = seq<u8>

  /** `n` zero bytes. */
  function Zeros(n: nat): (z: Frame)
    ensures |z| == n
    ensures forall k :: 0 <= k < n ==> z[k] == 0
  {
    seq(n, _ => 0)
  }

  /** The frame that reaches device `i` of a `count`-long chain with `[addr, data]`:
      every other pair is the zero (no-op) pair. */
  function OneDeviceFrame(count: nat, i: nat, addr: u8, data: u8): (f: Frame)
    requires i < count
    ensures |f| == 2 * count
    ensures f[2 * i] == addr && f[2 * i + 1] == data
    ensures forall k :: 0 <= k < |f| && k != 2 * i && k != 2 * i + 1 ==> f[k] == 0
  {
    Zeros(2 * i) + [addr, data] + Zeros(2 * (count - i - 1))
  }

  /** The frame that gives device k the pair `ops[k]`, one pair per list entry. */
  function OpsFrame(ops: seq<(Register, u8)>): (f: Frame)
    ensures |f| == 2 * |ops|
    ensures forall k :: 0 <= k < |ops| ==> f[2 * k] == Addr(ops[k].0) && f[2 * k + 1] == ops[k].1
  {
    if ops == [] then []
    else
      var last := ops[|ops| - 1];
      OpsFrame(ops[..|ops| - 1]) + [Addr(last.0), last.1]
  }

  /** `count` copies of the pair `[addr, data]`: even bytes are the address, odd bytes the data. */
  function BroadcastFrame(count: nat, addr: u8, data: u8): (f: Frame)
    ensures |f| == 2 * count
    ensures forall j :: 0 <= j < |f| ==> f[j] == if j % 2 == 0 then addr else data
  {
    if count == 0 then [] else [addr, data] + BroadcastFrame(count - 1, addr, data)
  }

  /** A sequence whose pair k is that of `ops[k]`, for every k, is `OpsFrame(ops)`. */
  lemma {:induction false} PairsMatch(f: Frame, ops: seq<(Register, u8)>)
    requires |f| == 2 * |ops|
    requires forall k :: 0 <= k < |ops| ==> f[2 * k] == Addr(ops[k].0) && f[2 * k + 1] == ops[k].1
    ensures f == OpsFrame(ops)
    decreases |ops|
  {
    if ops != [] {
      var n := |ops| - 1;
      var init, head := ops[..n], f[..2 * n];
      forall k | 0 <= k < n
        ensures head[2 * k] == Addr(init[k].0) && head[2 * k + 1] == init[k].1
      {
        assert init[k] == ops[k];
      }
      PairsMatch(head, init);
      assert f[2 * n] == Addr(ops[n].0) && f[2 * n + 1] == ops[n].1;
      assert f == head + [f[2 * n], f[2 * n + 1]];
    }
  }

  /** A buffer whose first `|ops|` pairs are those of `ops` starts with `OpsFrame(ops)`. */
  lemma PairsFrame(buf: seq<u8>, ops: seq<(Register, u8)>)
    requires 2 * |ops| <= |buf|
    requires forall k :: 0 <= k < |ops| ==> buf[2 * k] == Addr(ops[k].0) && buf[2 * k + 1] == ops[k].1
    ensures buf[..2 * |ops|] == OpsFrame(ops)
  {
    var head := buf[..2 * |ops|];
    forall k | 0 <= k < |ops|
      ensures head[2 * k] == Addr(ops[k].0) && head[2 * k + 1] == ops[k].1
    {
      assert head[2 * k] == buf[2 * k] && head[2 * k + 1] == buf[2 * k + 1];
    }
    PairsMatch(head, ops);
  }

  /** The source's array literal `[(reg, data); n]`. */
  function Uniform(n: nat, reg: Register, data: u8): (ops: seq<(Register, u8)>)
    ensures |ops| == n
    ensures forall k :: 0 <= k < n ==> ops[k] == (reg, data)
  {
    seq(n, _ => (reg, data))
  }

  /** The list a one-device write is equivalent to: `(reg, data)` for device `i`, `(NoOp, 0)` for the rest. */
  function Isolated(count: nat, i: nat, reg: Register, data: u8): (ops: seq<(Register, u8)>) {
    seq(count, k => if k == i then (reg, data) else (NoOp, 0))
  }

  /** An operation list that gives every device the same pair is a broadcast, also when it is
      the first `n` entries of a longer uniform list. */
  lemma UniformIsBroadcast(m: nat, n: nat, reg: Register, data: u8)
    requires n <= m
    ensures OpsFrame(Uniform(m, reg, data)[..n]) == BroadcastFrame(n, Addr(reg), data)
  {
    var ops := Uniform(m, reg, data)[..n];
    var f, g := OpsFrame(ops), BroadcastFrame(n, Addr(reg), data);
    forall j | 0 <= j < 2 * n
      ensures f[j] == g[j]
    {
      var k := j / 2;
      assert ops[k] == (reg, data);
      assert j == 2 * k || j == 2 * k + 1;
    }
  }

  /** A one-device frame is the all-devices frame in which every other device gets the NoOp register. */
  lemma OneDeviceIsNoOpElsewhere(count: nat, i: nat, reg: Register, data: u8)
    requires i < count
    ensures OneDeviceFrame(count, i, Addr(reg), data) == OpsFrame(Isolated(count, i, reg, data))
  {
    var ops := Isolated(count, i, reg, data);
    var f, g := OneDeviceFrame(count, i, Addr(reg), data), OpsFrame(ops);
    forall j | 0 <= j < 2 * count
      ensures f[j] == g[j]
    {
      var k := j / 2;
      assert j == 2 * k || j == 2 * k + 1;
      assert ops[k] == if k == i then (reg, data) else (NoOp, 0);
    }
  }

  /** The one-device frame of a long chain is that of a shorter chain followed by zero pairs:
      the full buffer after a one-device write, of which the driver sends the first `2 * count` bytes. */
  lemma OneDeviceFramePrefix(m: nat, count: nat, i: nat, addr: u8, data: u8)
    requires i < count <= m
    ensures OneDeviceFrame(m, i, addr, data) == OneDeviceFrame(count, i, addr, data) + Zeros(2 * (m - count))
  {
    var f, g := OneDeviceFrame(m, i, addr, data), OneDeviceFrame(count, i, addr, data) + Zeros(2 * (m - count));
    forall j | 0 <= j < 2 * m
      ensures f[j] == g[j]
    {
      if j < 2 * count {
        assert g[j] == OneDeviceFrame(count, i, addr, data)[j];
      } else {
        assert g[j] == Zeros(2 * (m - count))[j - 2 * count];
      }
    }
  }

  /** The eight frames that clear device `i`: frame k writes 0 to the register at address k + 1
      (digit k) of device `i` alone. */
  function ClearDisplayFrames(count: nat, i: nat): (fs: seq<Frame>)
    requires i < count
    ensures |fs| == NUM_DIGITS as int
    ensures forall k :: 0 <= k < |fs| ==> fs[k] == OneDeviceFrame(count, i, k as u8 + 1, 0)
  {
    seq(NUM_DIGITS as int, k requires 0 <= k < NUM_DIGITS as int => OneDeviceFrame(count, i, Addr(Digits()[k]), 0))
  }

  /** The eight frames that clear every device: frame k writes 0 to the register at address k + 1
      (digit k) of all of them. */
  function ClearAllFrames(count: nat): (fs: seq<Frame>)
    ensures |fs| == NUM_DIGITS as int
    ensures forall k :: 0 <= k < |fs| ==> fs[k] == BroadcastFrame(count, k as u8 + 1, 0)
  {
    seq(NUM_DIGITS as int, k requires 0 <= k < NUM_DIGITS as int => BroadcastFrame(count, Addr(Digits()[k]), 0))
  }

  /** Frame k of the clearing of device `i` writes 0 to digit register k of that device alone.
      Stated with `Addr(Digits()[k])` as the driver's loop computes it; the lemma only unfolds the
      function at index k for the solver, which is why its body is empty. */
  lemma ClearDisplayFramesAt(count: nat, i: nat, k: nat)
    requires i < count && k < NUM_DIGITS as int
    ensures |ClearDisplayFrames(count, i)| == NUM_DIGITS as int
    ensures ClearDisplayFrames(count, i)[k] == OneDeviceFrame(count, i, Addr(Digits()[k]), 0)
  {
  }

  /** Frame k of the clearing of every device writes 0 to digit register k of all of them.
      Like the lemma above, it only unfolds the function at index k for the driver's loop. */
  lemma ClearAllFramesAt(count: nat, k: nat)
    requires k < NUM_DIGITS as int
    ensures |ClearAllFrames(count)| == NUM_DIGITS as int
    ensures ClearAllFrames(count)[k] == BroadcastFrame(count, Addr(Digits()[k]), 0)
  {
  }

  /** The four setting frames of the start-up sequence, each sent to all devices: power on
      (Shutdown, 0x0C, set to 1), test mode off (DisplayTest, 0x0F, set to 0), scan all eight
      digits (ScanLimit, 0x0B, set to 7) and no decoding (DecodeMode, 0x09, set to 0). */
  function SettingFrames(count: nat): (fs: seq<Frame>)
    ensures fs == [ BroadcastFrame(count, 0x0C, 0x01), BroadcastFrame(count, 0x0F, 0x00),
                    BroadcastFrame(count, 0x0B, 0x07), BroadcastFrame(count, 0x09, 0x00) ]
  {
    [ BroadcastFrame(count, Addr(Shutdown), 1),
      BroadcastFrame(count, Addr(DisplayTest), 0),
      BroadcastFrame(count, Addr(ScanLimit), NUM_DIGITS - 1),
      BroadcastFrame(count, Addr(Register.DecodeMode), DecodeMode.NoDecode.Byte()) ]
  }

  /** The frames of the start-up sequence: twelve of them, the four settings and then frames 4 to 11
      clearing digits 0 to 7 (addresses 1 to 8) of every device, in that order. */
  function InitFrames(count: nat): (fs: seq<Frame>)
    ensures |fs| == 12 && fs[..4] == SettingFrames(count)
    ensures forall k :: 4 <= k < 12 ==> fs[k] == BroadcastFrame(count, k as u8 - 3, 0)
  {
    SettingFrames(count) + ClearAllFrames(count)
  }
}
