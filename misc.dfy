/** Single-bit register primitives, the I/O port enumeration and the
    Arduino Uno pin constants of the ATmega328P. */
module Misc {

  /** The C `uint8_t` and `uint16_t` types. */
  type Uint8 = x: int | 0 <= x < 256
  type Uint16 = x: int | 0 <= x < 65536

  /** A bit position inside an 8-bit register. */
  type BitIndex = b: nat | b < 8

  /** The mask `1 << bit` of the C macros, as an 8-bit value. */
  function Mask(bit: BitIndex): bv8 {
    match bit
    case 0 => 0x01
    case 1 => 0x02
    case 2 => 0x04
    case 3 => 0x08
    case 4 => 0x10
    case 5 => 0x20
    case 6 => 0x40
    case 7 => 0x80
  }

  /** `read(reg, bit)`: true exactly when bit `bit` of `reg` is one. */
  predicate ReadBit(reg: bv8, bit: BitIndex)
    ensures ReadBit(reg, bit) <==> (reg >> bit) & 1 == 1
  {
    (reg & Mask(bit)) != 0
  }

  /** `set(reg, bit)`, i.e. `reg |= (1 << bit)`. */
  function SetBit(reg: bv8, bit: BitIndex): (r: bv8)
    ensures ReadBit(r, bit)
    ensures forall j: BitIndex :: j != bit ==> ReadBit(r, j) == ReadBit(reg, j)
  {
    reg | Mask(bit)
  }

  /** `clr(reg, bit)`, i.e. `reg &= ~(1 << bit)`. */
  function ClrBit(reg: bv8, bit: BitIndex): (r: bv8)
    ensures !ReadBit(r, bit)
    ensures forall j: BitIndex :: j != bit ==> ReadBit(r, j) == ReadBit(reg, j)
  {
    reg & !Mask(bit)
  }

  /** Two registers whose eight bits agree are equal. */
  lemma BitsDetermine(x: bv8, y: bv8)
    requires forall j: BitIndex :: ReadBit(x, j) == ReadBit(y, j)
    ensures x == y
  {
    assert ReadBit(x, 0) == ReadBit(y, 0) && ReadBit(x, 1) == ReadBit(y, 1);
    assert ReadBit(x, 2) == ReadBit(y, 2) && ReadBit(x, 3) == ReadBit(y, 3);
    assert ReadBit(x, 4) == ReadBit(y, 4) && ReadBit(x, 5) == ReadBit(y, 5);
    assert ReadBit(x, 6) == ReadBit(y, 6) && ReadBit(x, 7) == ReadBit(y, 7);
  }

  /** Setting a bit that is already set changes nothing; so `set` is idempotent. */
  lemma SetBitAbsorbs(reg: bv8, bit: BitIndex)
    requires ReadBit(reg, bit)
    ensures SetBit(reg, bit) == reg
  {
    BitsDetermine(SetBit(reg, bit), reg);
  }

  /** Clearing a bit that is already clear changes nothing; so `clr` is idempotent. */
  lemma ClrBitAbsorbs(reg: bv8, bit: BitIndex)
    requires !ReadBit(reg, bit)
    ensures ClrBit(reg, bit) == reg
  {
    BitsDetermine(ClrBit(reg, bit), reg);
  }

  lemma SetBitIdempotent(reg: bv8, bit: BitIndex)
    ensures SetBit(SetBit(reg, bit), bit) == SetBit(reg, bit)
  {
    SetBitAbsorbs(SetBit(reg, bit), bit);
  }

  lemma ClrBitIdempotent(reg: bv8, bit: BitIndex)
    ensures ClrBit(ClrBit(reg, bit), bit) == ClrBit(reg, bit)
  {
    ClrBitAbsorbs(ClrBit(reg, bit), bit);
  }

  /** `clr` after `set` on one bit gives the same register as `clr` alone,
      and `set` after `clr` the same as `set` alone. */
  lemma ClrAfterSet(reg: bv8, bit: BitIndex)
    ensures ClrBit(SetBit(reg, bit), bit) == ClrBit(reg, bit)
    ensures SetBit(ClrBit(reg, bit), bit) == SetBit(reg, bit)
  {
    BitsDetermine(ClrBit(SetBit(reg, bit), bit), ClrBit(reg, bit));
    BitsDetermine(SetBit(ClrBit(reg, bit), bit), SetBit(reg, bit));
  }

  /** Operations on two different bits, or two of the same kind, commute. */
  lemma SetBitsCommute(reg: bv8, a: BitIndex, b: BitIndex)
    ensures SetBit(SetBit(reg, a), b) == SetBit(SetBit(reg, b), a)
  {
    BitsDetermine(SetBit(SetBit(reg, a), b), SetBit(SetBit(reg, b), a));
  }

  lemma ClrBitsCommute(reg: bv8, a: BitIndex, b: BitIndex)
    ensures ClrBit(ClrBit(reg, a), b) == ClrBit(ClrBit(reg, b), a)
  {
    BitsDetermine(ClrBit(ClrBit(reg, a), b), ClrBit(ClrBit(reg, b), a));
  }

  /** `enum io_port`: exactly four values; PortNone means "not bound to hardware". */
  datatype IoPort = PortB | PortC | PortD | PortNone

  /** Port D pins, Arduino pins 0 to 7. */
  const D0: Uint8 := 0
  const D1: Uint8 := 1
  const D2: Uint8 := 2
  const D3: Uint8 := 3
  const D4: Uint8 := 4
  const D5: Uint8 := 5
  const D6: Uint8 := 6
  const D7: Uint8 := 7

  /** Port B pins, Arduino pins 8 to 13. */
  const B0: Uint8 := 8
  const B1: Uint8 := 9
  const B2: Uint8 := 10
  const B3: Uint8 := 11
  const B4: Uint8 := 12
  const B5: Uint8 := 13

  /** Port C pins, Arduino pins A0 to A5. */
  const C0: Uint8 := 14
  const C1: Uint8 := 15
  const C2: Uint8 := 16
  const C3: Uint8 := 17
  const C4: Uint8 := 18
  const C5: Uint8 := 19

  /** The analog names of the port C pins. */
  const A0: Uint8 := 14
  const A1: Uint8 := 15
  const A2: Uint8 := 16
  const A3: Uint8 := 17
  const A4: Uint8 := 18
  const A5: Uint8 := 19
}
