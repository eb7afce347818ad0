/** The MAX7219 register map and the decode-mode payloads. */
module Registers {
  import opened Base
  import opened Errors

  datatype Register =
    | NoOp
    | Digit0 | Digit1 | Digit2 | Digit3 | Digit4 | Digit5 | Digit6 | Digit7
    | DecodeMode
    | Intensity
    | ScanLimit
    | Shutdown
    | DisplayTest

  /** A chip's digit (or matrix row) register. */
  predicate IsDigit(r: Register) {
    r.Digit0? || r.Digit1? || r.Digit2? || r.Digit3? || r.Digit4? || r.Digit5? || r.Digit6? || r.Digit7?
  }

  /** The one-byte wire address of a register. Only NoOp sits at address 0, so a pair
      of zero bytes is inert for every chip, and every address fits the chip's four address bits. */
  function Addr(r: Register): (a: u8)
    ensures a == 0 <==> r == NoOp
    ensures a <= 0x0F
    ensures IsDigit(r) <==> 1 <= a <= 8
  {
    match r
    case NoOp => 0x00
    case Digit0 => 0x01
    case Digit1 => 0x02
    case Digit2 => 0x03
    case Digit3 => 0x04
    case Digit4 => 0x05
    case Digit5 => 0x06
    case Digit6 => 0x07
    case Digit7 => 0x08
    case DecodeMode => 0x09
    case Intensity => 0x0A
    case ScanLimit => 0x0B
    case Shutdown => 0x0C
    case DisplayTest => 0x0F
  }

  /** Distinct registers have distinct addresses. */
  lemma AddrInjective(r: Register, s: Register)
    requires Addr(r) == Addr(s)
    ensures r == s
  {
    match r
    case NoOp =>
    case Digit0 =>
    case Digit1 =>
    case Digit2 =>
    case Digit3 =>
    case Digit4 =>
    case Digit5 =>
    case Digit6 =>
    case Digit7 =>
    case DecodeMode =>
    case Intensity =>
    case ScanLimit =>
    case Shutdown =>
    case DisplayTest =>
  }

  /** The eight digit registers, in order: position k holds the register one above Digit0 by k. */
  function Digits(): (ds: seq<Register>)
    ensures |ds| == NUM_DIGITS as int
    ensures forall k :: 0 <= k < |ds| ==> IsDigit(ds[k]) && Addr(ds[k]) as int == Addr(Register.Digit0) as int + k
  {
    [Register.Digit0, Digit1, Digit2, Digit3, Digit4, Digit5, Digit6, Digit7]
  }

  /** The digit register numbered `d`, or InvalidDigit when the chip has no such digit. */
  function TryDigit(d: u8): (r: Result<Register>)
    ensures r.Success? <==> d < NUM_DIGITS
    ensures r.Success? ==> IsDigit(r.value) && Addr(r.value) as int == d as int + 1
    ensures r.Failure? ==> r.error == InvalidDigit
  {
    match d
    case 0 => Success(Register.Digit0)
    case 1 => Success(Digit1)
    case 2 => Success(Digit2)
    case 3 => Success(Digit3)
    case 4 => Success(Digit4)
    case 5 => Success(Digit5)
    case 6 => Success(Digit6)
    case 7 => Success(Digit7)
    case _ => Failure(InvalidDigit)
  }

  /** Looking a digit up by number agrees with the ordered list of digits. */
  lemma TryDigitMatchesDigits(d: u8)
    requires d < NUM_DIGITS
    ensures TryDigit(d) == Success(Digits()[d])
  {
    AddrInjective(TryDigit(d).value, Digits()[d]);
  }

  /** 2 to the power `k`. */
  function Pow2(k: nat): (p: nat)
    ensures p >= 1
  {
    if k == 0 then 1 else 2 * Pow2(k - 1)
  }

  /** Bit `k` of byte `b`, bit 0 being the least significant. */
  predicate Bit(b: u8, k: nat) {
    (b as int / Pow2(k)) % 2 == 1
  }

  /** Which digits the chip decodes with its built-in Code B font. */
  datatype DecodeMode = NoDecode | Digit0 | Digits0To3 | AllDigits {

    /** Whether digit `k` is decoded in this mode. */
    predicate Decodes(k: nat) {
      match this
      case NoDecode => false
      case Digit0 => k == 0
      case Digits0To3 => k < 4
      case AllDigits => k < 8
    }

    /** The payload written to the decode-mode register. Only the no-decode mode writes 0. */
    function Byte(): (b: u8)
      ensures b == 0 <==> this == NoDecode
    {
      match this
      case NoDecode => 0x00
      case Digit0 => 0x01
      case Digits0To3 => 0x0F
      case AllDigits => 0xFF
    }
  }

  /** The decode-mode payload has one bit per digit: bit k is set iff digit k is decoded. */
  lemma DecodeModeBits(m: DecodeMode, k: nat)
    requires k < 8
    ensures Bit(m.Byte(), k) <==> m.Decodes(k)
  {
    assert Pow2(0) == 1 && Pow2(1) == 2 && Pow2(2) == 4 && Pow2(3) == 8;
    assert Pow2(4) == 16 && Pow2(5) == 32 && Pow2(6) == 64 && Pow2(7) == 128;
    assert k == 0 || k == 1 || k == 2 || k == 3 || k == 4 || k == 5 || k == 6 || k == 7;
  }
}
