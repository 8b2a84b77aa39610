/** The digital input device (`button_t`): a port, a bit of it and the
    pin-change interrupt flag, read through PINx and armed through PCICR
    and PCMSK0/1/2. */
module Buttons {
  import opened Misc
  import opened Routing
  import opened RegisterBank

  /** The fields `io_port`, `pin` and `interrupt_enabled` of `button_t`. */
  datatype ButtonState = ButtonState(binding: Binding, interruptEnabled: bool)

  /** The register effect of `button_init`: the PORT bit of a bound pin is
      set, which switches on the internal pull-up of an input. */
  function InitRegs(r: Registers, b: Binding): (r': Registers)
    ensures !IsBound(b) ==> r' == r
    ensures IsBound(b) ==> BitAt(r', PortBit(b)) && SameExcept(r, r', {PortBit(b)})
  {
    if IsBound(b) then SetLoc(r, PortBit(b)) else r
  }

  /** The register effect of `button_enable_interrupt`: the global interrupt
      flag is always raised; for a bound button the group's PCICR bit and the
      button's PCMSK bit are set as well, and nothing else changes. */
  function EnableRegs(r: Registers, b: Binding): (r': Registers)
    ensures r'.globalInterrupts
    ensures !IsBound(b) ==> r' == r.(globalInterrupts := true)
    ensures IsBound(b) ==> BitAt(r', PcieBit(b)) && BitAt(r', PcmskBit(b))
    ensures IsBound(b) ==> SameExcept(r.(globalInterrupts := true), r', {PcieBit(b), PcmskBit(b)})
  {
    var r0 := r.(globalInterrupts := true);
    if IsBound(b) then
      var r1 := SetLoc(r0, PcieBit(b));
      SameExceptTrans(r0, r1, SetLoc(r1, PcmskBit(b)), {PcieBit(b)}, {PcmskBit(b)});
      SetLoc(r1, PcmskBit(b))
    else r0
  }

  /** The register effect of `button_disable_interrupt`: only the button's
      PCMSK bit is cleared; PCICR and the global flag are left alone. */
  function DisableRegs(r: Registers, b: Binding): (r': Registers)
    ensures !IsBound(b) ==> r' == r
    ensures IsBound(b) ==> !BitAt(r', PcmskBit(b)) && SameExcept(r, r', {PcmskBit(b)})
  {
    if IsBound(b) then ClrLoc(r, PcmskBit(b)) else r
  }

  /** The register effect of `button_clear`: disable, then clear the PORT bit. */
  function ClearRegs(r: Registers, b: Binding): (r': Registers)
    ensures !IsBound(b) ==> r' == r
    ensures IsBound(b) ==> !BitAt(r', PcmskBit(b)) && !BitAt(r', PortBit(b))
    ensures IsBound(b) ==> SameExcept(r, r', {PcmskBit(b), PortBit(b)})
  {
    if IsBound(b) then
      var r1 := DisableRegs(r, b);
      SameExceptTrans(r, r1, ClrLoc(r1, PortBit(b)), {PcmskBit(b)}, {PortBit(b)});
      ClrLoc(r1, PortBit(b))
    else r
  }

  /** The bank together with one button. */
  datatype Config = Config(regs: Registers, button: ButtonState)

  /** `button_enable_interrupt`: the button keeps its binding, is marked
      armed, and the global flag is up. */
  function EnableStep(c: Config): (c': Config)
    ensures c'.button == ButtonState(c.button.binding, true) && c'.regs.globalInterrupts
    ensures IsBound(c.button.binding) ==> BitAt(c'.regs, PcmskBit(c.button.binding))
  {
    Config(EnableRegs(c.regs, c.button.binding), c.button.(interruptEnabled := true))
  }

  /** `button_disable_interrupt`: the button keeps its binding and is marked
      disarmed; the global flag stays as it was. */
  function DisableStep(c: Config): (c': Config)
    ensures c'.button == ButtonState(c.button.binding, false)
    ensures c'.regs.globalInterrupts == c.regs.globalInterrupts
    ensures IsBound(c.button.binding) ==> !BitAt(c'.regs, PcmskBit(c.button.binding))
  {
    Config(DisableRegs(c.regs, c.button.binding), c.button.(interruptEnabled := false))
  }

  /** `button_toggle_interrupt` looks at the stored flag, never at a
      register: the flag flips and the binding stays. */
  function ToggleStep(c: Config): (c': Config)
    ensures c'.button == ButtonState(c.button.binding, !c.button.interruptEnabled)
  {
    if c.button.interruptEnabled then DisableStep(c) else EnableStep(c)
  }

  /** `button_clear`: the button becomes unbound and disarmed; the global
      flag stays as it was. */
  function ClearStep(c: Config): (c': Config)
    ensures c'.button == ButtonState(Unbound, false)
    ensures c'.regs.globalInterrupts == c.regs.globalInterrupts
  {
    var d := DisableStep(c);
    Config(ClearRegs(c.regs, c.button.binding), d.button.(binding := Unbound))
  }

  /** `button_is_pressed`: an unbound button is never pressed, whatever the
      bank; a bound one is pressed exactly when its bit of its port's PIN
      register is one. */
  predicate Pressed(c: Config)
    ensures !IsBound(c.button.binding) ==> !Pressed(c)
    ensures IsBound(c.button.binding) ==>
              (Pressed(c) <==> ReadBit(Get(c.regs, PinOf(c.button.binding.port)), c.button.binding.bit))
  {
    IsBound(c.button.binding) && BitAt(c.regs, PinBit(c.button.binding))
  }

  /** The stored flag of a bound button agrees with its PCMSK bit. */
  ghost predicate Consistent(c: Config) {
    IsBound(c.button.binding) ==> c.button.interruptEnabled == BitAt(c.regs, PcmskBit(c.button.binding))
  }

  /** Raising the global flag changes no register bit. */
  lemma FlagIrrelevant(r: Registers, loc: Location)
    ensures BitAt(r.(globalInterrupts := true), loc) == BitAt(r, loc)
  {
    assert Get(r.(globalInterrupts := true), loc.reg) == Get(r, loc.reg);
  }

  /** Whatever the state before, enable, disable, toggle and clear leave the
      stored flag in agreement with the PCMSK bit. */
  lemma StepsKeepConsistent(c: Config)
    ensures Consistent(EnableStep(c)) && EnableStep(c).button.interruptEnabled
    ensures Consistent(DisableStep(c)) && !DisableStep(c).button.interruptEnabled
    ensures Consistent(ToggleStep(c))
    ensures Consistent(ClearStep(c))
  {
  }

  /** `button_is_pressed` reads one PIN bit and ignores everything else:
      it is false for an unbound button and follows the PIN register of a
      bound one. */
  lemma PressedReadsPin(c: Config, pinValue: bv8)
    requires IsBound(c.button.binding)
    ensures Pressed(Config(Put(c.regs, PinOf(c.button.binding.port), pinValue), c.button))
            == ReadBit(pinValue, c.button.binding.bit)
  {
    GetPut(c.regs, PinOf(c.button.binding.port), pinValue, PinOf(c.button.binding.port));
  }

  /** A cleared button is unbound, disarmed, no longer reads as pressed, and
      its old PCMSK and PORT bits are both clear. */
  lemma ClearDisarms(c: Config)
    ensures ClearStep(c).button == ButtonState(Unbound, false)
    ensures !Pressed(ClearStep(c))
    ensures IsBound(c.button.binding) ==>
              !BitAt(ClearStep(c).regs, PcmskBit(c.button.binding)) &&
              !BitAt(ClearStep(c).regs, PortBit(c.button.binding))
  {
  }

  /** Enabling twice is enabling once. */
  lemma EnableIdempotent(c: Config)
    ensures EnableStep(EnableStep(c)) == EnableStep(c)
  {
    var b := c.button.binding;
    var r := EnableStep(c).regs;
    assert r.(globalInterrupts := true) == r;
    if IsBound(b) {
      SetLocAbsorbs(r, PcieBit(b));
      SetLocAbsorbs(r, PcmskBit(b));
    }
  }

  /** Disabling twice is disabling once. */
  lemma DisableIdempotent(c: Config)
    ensures DisableStep(DisableStep(c)) == DisableStep(c)
  {
    var b := c.button.binding;
    if IsBound(b) {
      ClrLocAbsorbs(DisableStep(c).regs, PcmskBit(b));
    }
  }

  /** Two toggles restore the stored flag. From an enabled, consistent state
      they change no register bit but the PCICR group bit and the global flag
      (which enabling may raise); from a disabled, consistent state they
      change only the PCICR group bit and the global flag. */
  lemma {:induction false} ToggleTwice(c: Config)
    ensures ToggleStep(ToggleStep(c)).button == c.button
    ensures Consistent(c) && IsBound(c.button.binding) ==>
              SameExcept(c.regs.(globalInterrupts := true), ToggleStep(ToggleStep(c)).regs, {PcieBit(c.button.binding)})
  {
    var b := c.button.binding;
    if Consistent(c) && IsBound(b) {
      var r0 := c.regs.(globalInterrupts := true);
      if c.button.interruptEnabled {
        var r1 := DisableRegs(c.regs, b);
        var t := EnableRegs(r1, b);
        assert ToggleStep(ToggleStep(c)).regs == t;
        forall loc | loc !in {PcieBit(b)}
          ensures BitAt(t, loc) == BitAt(r0, loc)
        {
          FlagIrrelevant(c.regs, loc);
          FlagIrrelevant(r1, loc);
        }
      } else {
        var r1 := EnableRegs(c.regs, b);
        var t := DisableRegs(r1, b);
        assert ToggleStep(ToggleStep(c)).regs == t;
        forall loc | loc !in {PcieBit(b)}
          ensures BitAt(t, loc) == BitAt(r0, loc)
        {
          FlagIrrelevant(c.regs, loc);
        }
      }
    }
  }

  /** With interrupts already armed (flag, group bit and mask bit all set),
      enabling changes nothing. */
  lemma EnableWhenArmed(c: Config)
    requires c.regs.globalInterrupts && c.button.interruptEnabled
    requires IsBound(c.button.binding) ==>
               BitAt(c.regs, PcieBit(c.button.binding)) && BitAt(c.regs, PcmskBit(c.button.binding))
    ensures EnableStep(c) == c
  {
    var b := c.button.binding;
    assert c.regs.(globalInterrupts := true) == c.regs;
    if IsBound(b) {
      SetLocAbsorbs(c.regs, PcieBit(b));
      SetLocAbsorbs(c.regs, PcmskBit(b));
    }
  }

  /** `button_t`. The vtable of the C code becomes the methods of this class;
      the register bank is passed to each of them. */
  class Button {
    var ioPort: IoPort
    var pin: BitIndex
    var interruptEnabled: bool

    function State(): ButtonState
      reads this
    {
      ButtonState(Binding(ioPort, pin), interruptEnabled)
    }

    /** This button together with the bank. */
    function Now(hw: Hardware): Config
      reads this, hw
    {
      Config(hw.regs, State())
    }

    /** `button_init`: route the pin, set its pull-up, start disarmed. */
    constructor (hw: Hardware, pin: Uint8)
      modifies hw
      ensures State() == ButtonState(Route(pin), false)
      ensures hw.regs == InitRegs(old(hw.regs), Route(pin))
      ensures hw.trace == old(hw.trace) && hw.waits == old(hw.waits)
    {
      var b := Route(pin);
      ioPort := b.port;
      this.pin := b.bit;
      interruptEnabled := false;
      new;
      if ioPort == PortD {
        hw.Set(Location(PORTD, this.pin));
      } else if ioPort == PortB {
        hw.Set(Location(PORTB, this.pin));
      } else if ioPort == PortC {
        hw.Set(Location(PORTC, this.pin));
      }
    }

    /** `button_new`: allocation, which may fail, followed by `button_init`. */
    static method New(hw: Hardware, pin: Uint8, allocOk: bool) returns (btn: Button?)
      modifies hw
      ensures !allocOk ==> btn == null && hw.regs == old(hw.regs)
      ensures allocOk ==> btn != null && fresh(btn) && btn.State() == ButtonState(Route(pin), false)
      ensures allocOk ==> hw.regs == InitRegs(old(hw.regs), Route(pin))
      ensures hw.trace == old(hw.trace) && hw.waits == old(hw.waits)
    {
      if !allocOk {
        return null;
      }
      btn := new Button(hw, pin);
    }

    /** `button_clear`: disable the interrupt, clear the PORT bit, unbind. */
    method Clear(hw: Hardware)
      modifies this, hw
      ensures Now(hw) == ClearStep(old(Now(hw)))
      ensures hw.trace == old(hw.trace) && hw.waits == old(hw.waits)
    {
      DisableInterrupt(hw);
      if ioPort == PortB {
        hw.Clr(Location(PORTB, pin));
      } else if ioPort == PortC {
        hw.Clr(Location(PORTC, pin));
      } else if ioPort == PortD {
        hw.Clr(Location(PORTD, pin));
      }
      ioPort := PortNone;
      pin := 0;
    }

    /** `button_delete`: clear the button, free it and null the caller's handle. */
    method Delete(hw: Hardware) returns (handle: Button?)
      modifies this, hw
      ensures handle == null
      ensures Now(hw) == ClearStep(old(Now(hw)))
      ensures hw.trace == old(hw.trace) && hw.waits == old(hw.waits)
    {
      Clear(hw);
      handle := null;
    }

    /** `button_is_pressed`; changes nothing. */
    method IsPressed(hw: Hardware) returns (pressed: bool)
      ensures pressed == Pressed(Now(hw))
    {
      if ioPort == PortB {
        pressed := hw.Read(Location(PINB, pin));
      } else if ioPort == PortC {
        pressed := hw.Read(Location(PINC, pin));
      } else if ioPort == PortD {
        pressed := hw.Read(Location(PIND, pin));
      } else {
        pressed := false;
      }
    }

    /** `button_enable_interrupt`: `sei` first, then the group and mask bits. */
    method EnableInterrupt(hw: Hardware)
      modifies this, hw
      ensures Now(hw) == EnableStep(old(Now(hw)))
      ensures hw.trace == old(hw.trace) && hw.waits == old(hw.waits)
    {
      hw.Sei();
      if ioPort == PortB {
        hw.Set(Location(PCICR, PCIE0));
        hw.Set(Location(PCMSK0, pin));
      } else if ioPort == PortC {
        hw.Set(Location(PCICR, PCIE1));
        hw.Set(Location(PCMSK1, pin));
      } else if ioPort == PortD {
        hw.Set(Location(PCICR, PCIE2));
        hw.Set(Location(PCMSK2, pin));
      }
      interruptEnabled := true;
    }

    /** `button_disable_interrupt`. */
    method DisableInterrupt(hw: Hardware)
      modifies this, hw
      ensures Now(hw) == DisableStep(old(Now(hw)))
      ensures hw.trace == old(hw.trace) && hw.waits == old(hw.waits)
    {
      if ioPort == PortB {
        hw.Clr(Location(PCMSK0, pin));
      } else if ioPort == PortC {
        hw.Clr(Location(PCMSK1, pin));
      } else if ioPort == PortD {
        hw.Clr(Location(PCMSK2, pin));
      }
      interruptEnabled := false;
    }

    /** `button_toggle_interrupt`. */
    method ToggleInterrupt(hw: Hardware)
      modifies this, hw
      ensures Now(hw) == ToggleStep(old(Now(hw)))
      ensures hw.trace == old(hw.trace) && hw.waits == old(hw.waits)
    {
      if interruptEnabled {
        DisableInterrupt(hw);
      } else {
        EnableInterrupt(hw);
      }
    }
  }
}
