/** The digital output device (`led_t`): a port, a bit of it and the stored
    on/off state, driven through the DDRx and PORTx registers. */
module Leds {
  import opened Misc
  import opened Routing
  import opened RegisterBank

  /** The fields `io_port`, `pin` and `enabled` of `led_t`. */
  datatype LedState = LedState(binding: Binding, enabled: bool)

  /** What `led_clear` leaves behind. */
  const ClearedLed := LedState(Unbound, false)

  /** The register effect of `led_init`: the DDR bit of a bound pin is set
      (the bit becomes an output); nothing else changes. */
  function InitRegs(r: Registers, b: Binding): (r': Registers)
    ensures !IsBound(b) ==> r' == r
    ensures IsBound(b) ==> BitAt(r', DdrBit(b)) && SameExcept(r, r', {DdrBit(b)})
  {
    if IsBound(b) then SetLoc(r, DdrBit(b)) else r
  }

  /** The register effect of `led_on`: the PORT bit of a bound LED goes high. */
  function OnRegs(r: Registers, b: Binding): (r': Registers)
    ensures !IsBound(b) ==> r' == r
    ensures IsBound(b) ==> BitAt(r', PortBit(b)) && SameExcept(r, r', {PortBit(b)})
  {
    if IsBound(b) then SetLoc(r, PortBit(b)) else r
  }

  /** The register effect of `led_off`: the PORT bit of a bound LED goes low. */
  function OffRegs(r: Registers, b: Binding): (r': Registers)
    ensures !IsBound(b) ==> r' == r
    ensures IsBound(b) ==> !BitAt(r', PortBit(b)) && SameExcept(r, r', {PortBit(b)})
  {
    if IsBound(b) then ClrLoc(r, PortBit(b)) else r
  }

  /** The register effect of `led_clear`: both the DDR and the PORT bit of a
      bound LED are cleared; nothing else changes. */
  function ClearRegs(r: Registers, b: Binding): (r': Registers)
    ensures !IsBound(b) ==> r' == r
    ensures IsBound(b) ==> !BitAt(r', DdrBit(b)) && !BitAt(r', PortBit(b))
    ensures IsBound(b) ==> SameExcept(r, r', {DdrBit(b), PortBit(b)})
  {
    if IsBound(b) then
      var r1 := ClrLoc(r, DdrBit(b));
      SameExceptTrans(r, r1, ClrLoc(r1, PortBit(b)), {DdrBit(b)}, {PortBit(b)});
      ClrLoc(r1, PortBit(b))
    else r
  }

  /** The bank together with one LED: the state an LED operation acts on. */
  datatype Config = Config(regs: Registers, led: LedState)

  /** The PORT bit of a bound LED shows its stored state. */
  ghost predicate Shows(c: Config) {
    IsBound(c.led.binding) ==> BitAt(c.regs, PortBit(c.led.binding)) == c.led.enabled
  }

  /** `led_on`: the LED keeps its binding, is marked on and shows it. */
  function OnStep(c: Config): (c': Config)
    ensures c'.led == LedState(c.led.binding, true) && Shows(c')
  {
    Config(OnRegs(c.regs, c.led.binding), c.led.(enabled := true))
  }

  /** `led_off`: the LED keeps its binding, is marked off and shows it. */
  function OffStep(c: Config): (c': Config)
    ensures c'.led == LedState(c.led.binding, false) && Shows(c')
  {
    Config(OffRegs(c.regs, c.led.binding), c.led.(enabled := false))
  }

  /** `led_toggle` looks at the stored flag, never at a register: the flag
      flips, the binding stays, and the PORT bit then shows the new flag. */
  function ToggleStep(c: Config): (c': Config)
    ensures c'.led == LedState(c.led.binding, !c.led.enabled) && Shows(c')
  {
    if c.led.enabled then OffStep(c) else OnStep(c)
  }

  /** `led_clear`: the LED becomes unbound and off, and a bound LED's DDR and
      PORT bits are left clear. */
  function ClearStep(c: Config): (c': Config)
    ensures c'.led == ClearedLed
    ensures IsBound(c.led.binding) ==>
              !BitAt(c'.regs, DdrBit(c.led.binding)) && !BitAt(c'.regs, PortBit(c.led.binding))
  {
    Config(ClearRegs(c.regs, c.led.binding), ClearedLed)
  }

  lemma OnIdempotent(c: Config)
    ensures OnStep(OnStep(c)) == OnStep(c)
  {
    if IsBound(c.led.binding) {
      SetLocAbsorbs(OnStep(c).regs, PortBit(c.led.binding));
    }
  }

  lemma OffIdempotent(c: Config)
    ensures OffStep(OffStep(c)) == OffStep(c)
  {
    if IsBound(c.led.binding) {
      ClrLocAbsorbs(OffStep(c).regs, PortBit(c.led.binding));
    }
  }

  /** After `on` or `off` the PORT bit shows the stored state. */
  lemma OnOffShow(c: Config)
    ensures Shows(OnStep(c)) && OnStep(c).led.enabled
    ensures Shows(OffStep(c)) && !OffStep(c).led.enabled
  {
  }

  /** Two toggles restore the stored flag, and restore the whole bank too
      whenever the PORT bit showed that flag beforehand. */
  lemma {:induction false} ToggleTwice(c: Config)
    ensures ToggleStep(ToggleStep(c)).led == c.led
    ensures Shows(c) ==> ToggleStep(ToggleStep(c)) == c
  {
    var b := c.led.binding;
    if Shows(c) && IsBound(b) {
      if c.led.enabled {
        assert ToggleStep(ToggleStep(c)).regs == SetLoc(ClrLoc(c.regs, PortBit(b)), PortBit(b));
        Extensionality(c.regs, ToggleStep(ToggleStep(c)).regs);
      } else {
        assert ToggleStep(ToggleStep(c)).regs == ClrLoc(SetLoc(c.regs, PortBit(b)), PortBit(b));
        Extensionality(c.regs, ToggleStep(ToggleStep(c)).regs);
      }
    }
  }

  /** Switching on and then off leaves the bank as switching off alone. */
  lemma OffAfterOn(r: Registers, b: Binding)
    ensures OffRegs(OnRegs(r, b), b) == OffRegs(r, b)
  {
    if IsBound(b) {
      Extensionality(OffRegs(OnRegs(r, b), b), OffRegs(r, b));
    }
  }

  /** A cleared LED is inert: `on`, `off` and `toggle` change no register. */
  lemma ClearedIsInert(c: Config)
    ensures ClearStep(c).led == ClearedLed
    ensures OnStep(ClearStep(c)).regs == ClearStep(c).regs
    ensures OffStep(ClearStep(c)).regs == ClearStep(c).regs
    ensures ToggleStep(ClearStep(c)).regs == ClearStep(c).regs
  {
  }

  /** `led_t`. The vtable of the C code becomes the methods of this class;
      the register bank is passed to each of them. */
  class Led {
    var ioPort: IoPort
    var pin: BitIndex
    var enabled: bool

    function State(): LedState
      reads this
    {
      LedState(Binding(ioPort, pin), enabled)
    }

    /** This LED together with the bank. */
    function Now(hw: Hardware): Config
      reads this, hw
    {
      Config(hw.regs, State())
    }

    /** `led_init`: route the pin, make its bit an output, start off. */
    constructor (hw: Hardware, pin: Uint8)
      modifies hw
      ensures State() == LedState(Route(pin), false)
      ensures hw.regs == InitRegs(old(hw.regs), Route(pin))
      ensures hw.trace == old(hw.trace) && hw.waits == old(hw.waits)
    {
      var b := Route(pin);
      ioPort := b.port;
      this.pin := b.bit;
      enabled := false;
      new;
      if ioPort == PortD {
        hw.Set(Location(DDRD, this.pin));
      } else if ioPort == PortB {
        hw.Set(Location(DDRB, this.pin));
      } else if ioPort == PortC {
        hw.Set(Location(DDRC, this.pin));
      }
    }

    /** `led_new`: allocation, which may fail, followed by `led_init`. */
    static method New(hw: Hardware, pin: Uint8, allocOk: bool) returns (l: Led?)
      modifies hw
      ensures !allocOk ==> l == null && hw.regs == old(hw.regs)
      ensures allocOk ==> l != null && fresh(l) && l.State() == LedState(Route(pin), false)
      ensures allocOk ==> hw.regs == InitRegs(old(hw.regs), Route(pin))
      ensures hw.trace == old(hw.trace) && hw.waits == old(hw.waits)
    {
      if !allocOk {
        return null;
      }
      l := new Led(hw, pin);
    }

    /** `led_clear`: unconfigure the bit and return to the unbound state. */
    method Clear(hw: Hardware)
      modifies this, hw
      ensures Now(hw) == ClearStep(old(Now(hw)))
      ensures hw.trace == old(hw.trace) && hw.waits == old(hw.waits)
    {
      if ioPort == PortB {
        hw.Clr(Location(DDRB, pin));
        hw.Clr(Location(PORTB, pin));
      } else if ioPort == PortC {
        hw.Clr(Location(DDRC, pin));
        hw.Clr(Location(PORTC, pin));
      } else if ioPort == PortD {
        hw.Clr(Location(DDRD, pin));
        hw.Clr(Location(PORTD, pin));
      }
      ioPort := PortNone;
      pin := 0;
      enabled := false;
    }

    /** `led_delete`: clear the LED, free it and null the caller's handle. */
    method Delete(hw: Hardware) returns (handle: Led?)
      modifies this, hw
      ensures handle == null
      ensures Now(hw) == ClearStep(old(Now(hw)))
      ensures hw.trace == old(hw.trace) && hw.waits == old(hw.waits)
    {
      Clear(hw);
      handle := null;
    }

    /** `led_on`; on an unbound LED only the flag changes. */
    method On(hw: Hardware)
      modifies this, hw
      ensures Now(hw) == OnStep(old(Now(hw)))
      ensures hw.trace == old(hw.trace) && hw.waits == old(hw.waits)
    {
      if ioPort == PortB {
        hw.Set(Location(PORTB, pin));
      } else if ioPort == PortC {
        hw.Set(Location(PORTC, pin));
      } else if ioPort == PortD {
        hw.Set(Location(PORTD, pin));
      }
      enabled := true;
    }

    /** `led_off`. */
    method Off(hw: Hardware)
      modifies this, hw
      ensures Now(hw) == OffStep(old(Now(hw)))
      ensures hw.trace == old(hw.trace) && hw.waits == old(hw.waits)
    {
      if ioPort == PortB {
        hw.Clr(Location(PORTB, pin));
      } else if ioPort == PortC {
        hw.Clr(Location(PORTC, pin));
      } else if ioPort == PortD {
        hw.Clr(Location(PORTD, pin));
      }
      enabled := false;
    }

    /** `led_toggle`. */
    method Toggle(hw: Hardware)
      modifies this, hw
      ensures Now(hw) == ToggleStep(old(Now(hw)))
      ensures hw.trace == old(hw.trace) && hw.waits == old(hw.waits)
    {
      if enabled {
        Off(hw);
      } else {
        On(hw);
      }
    }

    /** `led_blink`: one toggle, then one wait of `blinkSpeedMs`, spent with
        the bank the toggle left. */
    method Blink(hw: Hardware, blinkSpeedMs: Uint16)
      modifies this, hw
      ensures Now(hw) == ToggleStep(old(Now(hw)))
      ensures hw.trace == old(hw.trace) + [Delay(blinkSpeedMs)]
      ensures hw.waits == old(hw.waits) + [ToggleStep(old(Now(hw))).regs]
    {
      Toggle(hw);
      hw.DelayMs(blinkSpeedMs);
    }
  }
}
