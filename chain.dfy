/** What a frame does to a daisy chain of MAX7219 chips, as an independent reference for the
    frames the driver builds. Each chip is a 16-bit shift register: a packet shifted into the chip
    nearest the controller pushes that chip's previous packet on to its neighbour, and the packet
    held by the furthest chip falls off the end. When the transfer ends every chip latches the
    packet it holds; a packet addressed to NoOp leaves the chip unchanged. */
module Chain {
  import opened Base
  import opened Registers
  import opened Frames

  /** One 16-bit packet: a register address and its data byte. */
  datatype Packet = Packet(addr: u8, data: u8)

  /** A chip's register file: the last value latched at each address. */
  type Chip = map<u8, u8>

  /** The packets of a frame, in the order they are shifted out. */
  function Packets(f: Frame): (ps: seq<Packet>)
    requires |f| % 2 == 0
    ensures |ps| == |f| / 2
    ensures forall k :: 0 <= k < |ps| ==> ps[k] == Packet(f[2 * k], f[2 * k + 1])
  {
    if f == [] then [] else [Packet(f[0], f[1])] + Packets(f[2..])
  }

  /** Shifts one packet into the chain; the chain's entry 0 is the chip furthest from the controller. */
  function ShiftIn(chain: seq<Packet>, p: Packet): (chain': seq<Packet>) {
    (chain + [p])[1..]
  }

  /** Shifts a whole sequence of packets into the chain, first packet first. */
  function ShiftAll(chain: seq<Packet>, ps: seq<Packet>): (held: seq<Packet>)
    ensures |held| == |chain|
    decreases ps
  {
    if ps == [] then chain else ShiftAll(ShiftIn(chain, ps[0]), ps[1..])
  }

  /** What the chain holds after a transfer: the last `|chain|` packets of old contents followed by the transfer. */
  lemma {:induction false} ShiftAllWindow(chain: seq<Packet>, ps: seq<Packet>)
    ensures ShiftAll(chain, ps) == (chain + ps)[|ps|..]
    decreases ps
  {
    if ps != [] {
      var next := ShiftIn(chain, ps[0]);
      ShiftAllWindow(next, ps[1..]);
      assert next + ps[1..] == (chain + ps)[1..];
    }
  }

  /** A transfer of exactly one packet per chip leaves the first packet sent in the furthest chip
      and the last packet sent in the nearest one, whatever the chain held before. */
  lemma ShiftAllFillsInOrder(chain: seq<Packet>, ps: seq<Packet>)
    requires |ps| == |chain|
    ensures ShiftAll(chain, ps) == ps
  {
    ShiftAllWindow(chain, ps);
  }

  /** A chip acting on the packet it latched. */
  function Execute(c: Chip, p: Packet): (c': Chip)
    ensures p.addr == Addr(NoOp) ==> c' == c
    ensures p.addr != Addr(NoOp) ==> p.addr in c' && c'[p.addr] == p.data
    ensures forall a :: a != p.addr ==> (a in c' <==> a in c) && (a in c ==> c'[a] == c[a])
  {
    if p.addr == Addr(NoOp) then c else c[p.addr := p.data]
  }

  /** The chips after one transfer of `f`: shift every packet in, then every chip latches. */
  function Transmit(chips: seq<Chip>, stale: seq<Packet>, f: Frame): (after: seq<Chip>)
    requires |stale| == |chips| && |f| == 2 * |chips|
    ensures |after| == |chips|
  {
    var held := ShiftAll(stale, Packets(f));
    seq(|chips|, k requires 0 <= k < |chips| => Execute(chips[k], held[k]))
  }

  /** A transfer of one packet per chip latches packet k of the frame in chip k. */
  lemma TransmitFills(chips: seq<Chip>, stale: seq<Packet>, f: Frame)
    requires |stale| == |chips| && |f| == 2 * |chips|
    ensures forall k :: 0 <= k < |chips| ==> Transmit(chips, stale, f)[k] == Execute(chips[k], Packets(f)[k])
  {
    ShiftAllFillsInOrder(stale, Packets(f));
  }

  /** The packets of an all-devices frame are the pairs of `ops`, in order. */
  lemma OpsFramePackets(ops: seq<(Register, u8)>)
    ensures forall k :: 0 <= k < |ops| ==> Packets(OpsFrame(ops))[k] == Packet(Addr(ops[k].0), ops[k].1)
  {
    var f := OpsFrame(ops);
    forall k | 0 <= k < |ops|
      ensures Packets(f)[k] == Packet(Addr(ops[k].0), ops[k].1)
    {
      assert Packets(f)[k] == Packet(f[2 * k], f[2 * k + 1]);
    }
  }

  /** An all-devices frame gives chip k exactly the pair `ops[k]`. */
  lemma TransmitOpsFrame(chips: seq<Chip>, stale: seq<Packet>, ops: seq<(Register, u8)>)
    requires |stale| == |chips| == |ops|
    ensures forall k :: 0 <= k < |chips| ==>
              Transmit(chips, stale, OpsFrame(ops))[k] == Execute(chips[k], Packet(Addr(ops[k].0), ops[k].1))
  {
    TransmitFills(chips, stale, OpsFrame(ops));
    OpsFramePackets(ops);
  }

  /** A one-device frame changes chip `i` as the register write asks and leaves every other chip as it was. */
  lemma OneDeviceFrameReachesOnlyTarget(chips: seq<Chip>, stale: seq<Packet>, i: nat, reg: Register, data: u8)
    requires |stale| == |chips| && i < |chips|
    ensures var after := Transmit(chips, stale, OneDeviceFrame(|chips|, i, Addr(reg), data));
            after[i] == Execute(chips[i], Packet(Addr(reg), data)) &&
            forall k :: 0 <= k < |chips| && k != i ==> after[k] == chips[k]
  {
    var ops := Isolated(|chips|, i, reg, data);
    OneDeviceIsNoOpElsewhere(|chips|, i, reg, data);
    TransmitOpsFrame(chips, stale, ops);
    forall k | 0 <= k < |chips| && k != i
      ensures Transmit(chips, stale, OpsFrame(ops))[k] == chips[k]
    {
      assert ops[k] == (NoOp, 0);
    }
  }

  /** A broadcast frame makes every chip perform the same register write. */
  lemma BroadcastFrameReachesEveryChip(chips: seq<Chip>, stale: seq<Packet>, reg: Register, data: u8)
    requires |stale| == |chips|
    ensures forall k :: 0 <= k < |chips| ==>
              Transmit(chips, stale, BroadcastFrame(|chips|, Addr(reg), data))[k] == Execute(chips[k], Packet(Addr(reg), data))
  {
    UniformIsBroadcast(|chips|, |chips|, reg, data);
    var ops := Uniform(|chips|, reg, data);
    assert ops[..|chips|] == ops;
    TransmitOpsFrame(chips, stale, ops);
  }

  /** Sending the same broadcast again changes nothing more: every chip already holds the value. */
  lemma BroadcastTwiceIsOnce(chips: seq<Chip>, stale1: seq<Packet>, stale2: seq<Packet>, reg: Register, data: u8)
    requires |stale1| == |stale2| == |chips|
    ensures var f := BroadcastFrame(|chips|, Addr(reg), data);
            Transmit(Transmit(chips, stale1, f), stale2, f) == Transmit(chips, stale1, f)
  {
    var f := BroadcastFrame(|chips|, Addr(reg), data);
    var once := Transmit(chips, stale1, f);
    BroadcastFrameReachesEveryChip(chips, stale1, reg, data);
    BroadcastFrameReachesEveryChip(once, stale2, reg, data);
    forall k | 0 <= k < |chips|
      ensures Transmit(once, stale2, f)[k] == once[k]
    {
      var p := Packet(Addr(reg), data);
      assert Execute(Execute(chips[k], p), p) == Execute(chips[k], p);
    }
  }
}
