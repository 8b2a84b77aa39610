/** A simulated ATmega328P register bank: the data-direction, output and
    input registers of ports B, C and D, the pin-change interrupt registers
    and the global interrupt flag, plus a ghost record of what the program
    did over time. */
module RegisterBank {
  import opened Misc
  import opened Routing

  /** The 8-bit registers the devices use. */
  datatype Reg =
    | DDRB | DDRC | DDRD
    | PORTB | PORTC | PORTD
    | PINB | PINC | PIND
    | PCICR | PCMSK0 | PCMSK1 | PCMSK2

  /** A value of the whole bank; `globalInterrupts` is the I flag `sei` sets. */
  datatype Registers = Registers(
    ddrB: bv8, ddrC: bv8, ddrD: bv8,
    portB: bv8, portC: bv8, portD: bv8,
    pinB: bv8, pinC: bv8, pinD: bv8,
    pcicr: bv8, pcmsk0: bv8, pcmsk1: bv8, pcmsk2: bv8,
    globalInterrupts: bool)

  function Get(r: Registers, x: Reg): bv8 {
    match x
    case DDRB => r.ddrB
    case DDRC => r.ddrC
    case DDRD => r.ddrD
    case PORTB => r.portB
    case PORTC => r.portC
    case PORTD => r.portD
    case PINB => r.pinB
    case PINC => r.pinC
    case PIND => r.pinD
    case PCICR => r.pcicr
    case PCMSK0 => r.pcmsk0
    case PCMSK1 => r.pcmsk1
    case PCMSK2 => r.pcmsk2
  }

  /** The bank with register `x` replaced by `v`. */
  function Put(r: Registers, x: Reg, v: bv8): Registers {
    match x
    case DDRB => r.(ddrB := v)
    case DDRC => r.(ddrC := v)
    case DDRD => r.(ddrD := v)
    case PORTB => r.(portB := v)
    case PORTC => r.(portC := v)
    case PORTD => r.(portD := v)
    case PINB => r.(pinB := v)
    case PINC => r.(pinC := v)
    case PIND => r.(pinD := v)
    case PCICR => r.(pcicr := v)
    case PCMSK0 => r.(pcmsk0 := v)
    case PCMSK1 => r.(pcmsk1 := v)
    case PCMSK2 => r.(pcmsk2 := v)
  }

  /** Reading back a register after replacing one: the new value for that
      register, the old value for every other, and the same interrupt flag. */
  lemma GetPut(r: Registers, x: Reg, v: bv8, y: Reg)
    ensures Get(Put(r, x, v), y) == if y == x then v else Get(r, y)
    ensures Put(r, x, v).globalInterrupts == r.globalInterrupts
  {
  }

  /** One bit of one register. */
  datatype Location = Location(reg: Reg, bit: BitIndex)

  predicate BitAt(r: Registers, loc: Location) {
    ReadBit(Get(r, loc.reg), loc.bit)
  }

  /** Every register bit outside `changed`, and the global interrupt flag,
      holds the same value in `r` and `r'`. */
  ghost predicate SameExcept(r: Registers, r': Registers, changed: set<Location>) {
    && r'.globalInterrupts == r.globalInterrupts
    && forall loc :: loc !in changed ==> BitAt(r', loc) == BitAt(r, loc)
  }

  /** Two banks that agree on every bit and on the flag are the same bank. */
  lemma Extensionality(r: Registers, r': Registers)
    requires SameExcept(r, r', {})
    ensures r == r'
  {
    forall x: Reg
      ensures Get(r, x) == Get(r', x)
    {
      forall j: BitIndex
        ensures ReadBit(Get(r, x), j) == ReadBit(Get(r', x), j)
      {
        assert BitAt(r, Location(x, j)) == BitAt(r', Location(x, j));
      }
      BitsDetermine(Get(r, x), Get(r', x));
    }
    assert Get(r, DDRB) == Get(r', DDRB) && Get(r, DDRC) == Get(r', DDRC) && Get(r, DDRD) == Get(r', DDRD);
    assert Get(r, PORTB) == Get(r', PORTB) && Get(r, PORTC) == Get(r', PORTC) && Get(r, PORTD) == Get(r', PORTD);
    assert Get(r, PINB) == Get(r', PINB) && Get(r, PINC) == Get(r', PINC) && Get(r, PIND) == Get(r', PIND);
    assert Get(r, PCICR) == Get(r', PCICR) && Get(r, PCMSK0) == Get(r', PCMSK0);
    assert Get(r, PCMSK1) == Get(r', PCMSK1) && Get(r, PCMSK2) == Get(r', PCMSK2);
  }

  /** Replacing one register by a value that differs from it in one bit at
      most leaves every other bit of the bank as it was. */
  lemma PutOneBit(r: Registers, loc: Location, v: bv8)
    requires forall j: BitIndex :: j != loc.bit ==> ReadBit(v, j) == ReadBit(Get(r, loc.reg), j)
    ensures SameExcept(r, Put(r, loc.reg, v), {loc})
  {
    var r' := Put(r, loc.reg, v);
    GetPut(r, loc.reg, v, loc.reg);
    forall l | l !in {loc}
      ensures BitAt(r', l) == BitAt(r, l)
    {
      GetPut(r, loc.reg, v, l.reg);
    }
  }

  /** Two changes in a row change at most the union of what each changes. */
  lemma SameExceptTrans(r1: Registers, r2: Registers, r3: Registers, a: set<Location>, b: set<Location>)
    requires SameExcept(r1, r2, a) && SameExcept(r2, r3, b)
    ensures SameExcept(r1, r3, a + b)
  {
  }

  /** `set(reg, bit)` applied to the bank. */
  function SetLoc(r: Registers, loc: Location): (r': Registers)
    ensures BitAt(r', loc)
    ensures SameExcept(r, r', {loc})
  {
    PutOneBit(r, loc, SetBit(Get(r, loc.reg), loc.bit));
    GetPut(r, loc.reg, SetBit(Get(r, loc.reg), loc.bit), loc.reg);
    Put(r, loc.reg, SetBit(Get(r, loc.reg), loc.bit))
  }

  /** `clr(reg, bit)` applied to the bank. */
  function ClrLoc(r: Registers, loc: Location): (r': Registers)
    ensures !BitAt(r', loc)
    ensures SameExcept(r, r', {loc})
  {
    PutOneBit(r, loc, ClrBit(Get(r, loc.reg), loc.bit));
    GetPut(r, loc.reg, ClrBit(Get(r, loc.reg), loc.bit), loc.reg);
    Put(r, loc.reg, ClrBit(Get(r, loc.reg), loc.bit))
  }

  /** Setting a bit that is already set, or clearing one already clear, changes nothing. */
  lemma SetLocAbsorbs(r: Registers, loc: Location)
    requires BitAt(r, loc)
    ensures SetLoc(r, loc) == r
  {
    Extensionality(r, SetLoc(r, loc));
  }

  lemma ClrLocAbsorbs(r: Registers, loc: Location)
    requires !BitAt(r, loc)
    ensures ClrLoc(r, loc) == r
  {
    Extensionality(r, ClrLoc(r, loc));
  }

  /** The registers of each port. */
  function DdrOf(p: IoPort): Reg
    requires p != PortNone
  {
    match p
    case PortB => DDRB
    case PortC => DDRC
    case PortD => DDRD
  }

  function PortOf(p: IoPort): Reg
    requires p != PortNone
  {
    match p
    case PortB => PORTB
    case PortC => PORTC
    case PortD => PORTD
  }

  function PinOf(p: IoPort): Reg
    requires p != PortNone
  {
    match p
    case PortB => PINB
    case PortC => PINC
    case PortD => PIND
  }

  /** The pin-change mask register of each port's group: B is PCINT0, C is PCINT1, D is PCINT2. */
  function PcmskOf(p: IoPort): Reg
    requires p != PortNone
  {
    match p
    case PortB => PCMSK0
    case PortC => PCMSK1
    case PortD => PCMSK2
  }

  /** The pin-change interrupt enable bits of PCICR. */
  const PCIE0: BitIndex := 0
  const PCIE1: BitIndex := 1
  const PCIE2: BitIndex := 2

  /** The PCICR enable bit of each port's group. */
  function PcieOf(p: IoPort): BitIndex
    requires p != PortNone
  {
    match p
    case PortB => PCIE0
    case PortC => PCIE1
    case PortD => PCIE2
  }

  /** The DDRx bit, the PORTx bit, the PINx bit and the PCMSKn bit of a bound
      device, and the PCICR bit enabling its pin-change group. */
  function DdrBit(b: Binding): Location
    requires IsBound(b)
  {
    Location(DdrOf(b.port), b.bit)
  }

  function PortBit(b: Binding): Location
    requires IsBound(b)
  {
    Location(PortOf(b.port), b.bit)
  }

  function PinBit(b: Binding): Location
    requires IsBound(b)
  {
    Location(PinOf(b.port), b.bit)
  }

  function PcmskBit(b: Binding): Location
    requires IsBound(b)
  {
    Location(PcmskOf(b.port), b.bit)
  }

  function PcieBit(b: Binding): Location
    requires IsBound(b)
  {
    Location(PCICR, PcieOf(b.port))
  }

  /** What happened, in order: a slot of an LED collection switched on or
      off by one of its choreographies, or a blocking wait. */
  datatype Event = On(slot: nat) | Off(slot: nat) | Delay(ms: nat)

  /** The register bank itself, as the devices see it: the memory-mapped
      I/O registers, held as one value, the ghost record of events, and the
      ghost record of the bank each wait was spent with. */
  class Hardware {
    var regs: Registers
    ghost var trace: seq<Event>
    ghost var waits: seq<Registers>

    constructor (initial: Registers)
      ensures regs == initial && trace == [] && waits == []
    {
      regs := initial;
      trace := [];
      waits := [];
    }

    /** The `set(reg, bit)` macro applied to one register of the bank. */
    method Set(loc: Location)
      modifies this
      ensures regs == SetLoc(old(regs), loc)
      ensures trace == old(trace) && waits == old(waits)
    {
      regs := SetLoc(regs, loc);
    }

    /** The `clr(reg, bit)` macro applied to one register of the bank. */
    method Clr(loc: Location)
      modifies this
      ensures regs == ClrLoc(old(regs), loc)
      ensures trace == old(trace) && waits == old(waits)
    {
      regs := ClrLoc(regs, loc);
    }

    /** `read(reg, bit)` on the bank. */
    method Read(loc: Location) returns (isSet: bool)
      ensures isSet == BitAt(regs, loc)
    {
      isSet := BitAt(regs, loc);
    }

    /** `delay_ms`: a blocking wait, recorded together with the bank it
        waits on, and otherwise without effect. */
    method DelayMs(ms: Uint16)
      modifies this
      ensures regs == old(regs)
      ensures trace == old(trace) + [Delay(ms)]
      ensures waits == old(waits) + [regs]
    {
      trace := trace + [Delay(ms)];
      waits := waits + [regs];
    }

    /** `sei`: set the global interrupt flag. */
    method Sei()
      modifies this
      ensures regs == old(regs).(globalInterrupts := true)
      ensures trace == old(trace) && waits == old(waits)
    {
      regs := regs.(globalInterrupts := true);
    }
  }
}
