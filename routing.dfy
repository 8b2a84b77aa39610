/** The pin routing that `led_init` and `button_init` both perform: an
    Arduino Uno pin number is resolved to an I/O port and a bit of it. */
module Routing {
  import opened Misc

  /** The (port, bit) pair a device stores in its `io_port` and `pin` fields. */
  datatype Binding = Binding(port: IoPort, bit: BitIndex)

  /** What an out-of-range pin, and every cleared device, is bound to. */
  const Unbound := Binding(PortNone, 0)

  predicate IsBound(b: Binding) {
    b.port != PortNone
  }

  /** Arduino number of bit 0 of each port: D0, B0 and C0. */
  function FirstPin(p: IoPort): Uint8
    requires p != PortNone
  {
    match p
    case PortD => D0
    case PortB => B0
    case PortC => C0
  }

  /** How many pins of each port the Arduino Uno brings out. */
  function PinCount(p: IoPort): nat
    requires p != PortNone
  {
    if p == PortD then 8 else 6
  }

  /** The bindings `Route` can produce. */
  predicate Routable(b: Binding) {
    if b.port == PortNone then b.bit == 0 else b.bit < PinCount(b.port)
  }

  /** The three-way pin test of `led_init` and `button_init`: pins 0-7 go to
      port D, 8-13 to port B, 14-19 to port C, every other value to (NONE, 0). */
  function Route(pin: Uint8): (b: Binding)
    ensures Routable(b)
    ensures b.port == PortD <==> pin <= 7
    ensures b.port == PortB <==> 8 <= pin <= 13
    ensures b.port == PortC <==> 14 <= pin <= 19
    ensures IsBound(b) ==> pin == FirstPin(b.port) + b.bit
    ensures !IsBound(b) ==> b == Unbound
  {
    if 0 <= pin <= 7 then Binding(PortD, pin)
    else if 8 <= pin <= 13 then Binding(PortB, pin - 8)
    else if 14 <= pin <= 19 then Binding(PortC, pin - 14)
    else Binding(PortNone, 0)
  }

  /** The Arduino pin number of a bound binding: the inverse of `Route`. */
  function ArduinoPin(b: Binding): (pin: Uint8)
    requires IsBound(b) && Routable(b)
    ensures pin <= 19
  {
    FirstPin(b.port) + b.bit
  }

  /** Routing a pin and reading back its Arduino number gives the pin. */
  lemma RouteThenPin(pin: Uint8)
    requires IsBound(Route(pin))
    ensures ArduinoPin(Route(pin)) == pin
  {
  }

  /** Every binding `Route` can produce is produced by its own Arduino pin. */
  lemma PinThenRoute(b: Binding)
    requires IsBound(b) && Routable(b)
    ensures Route(ArduinoPin(b)) == b
  {
  }

  /** A binding is routable exactly when some pin routes to it. */
  lemma RoutableIsImage(b: Binding)
    ensures Routable(b) <==> exists pin: Uint8 :: Route(pin) == b
  {
    if Routable(b) {
      if IsBound(b) {
        PinThenRoute(b);
      } else {
        assert Route(20) == b;
      }
    }
  }

  /** Two different bound pins never share a (port, bit) pair. */
  lemma RouteInjective(p: Uint8, q: Uint8)
    requires IsBound(Route(p)) && Route(p) == Route(q)
    ensures p == q
  {
    RouteThenPin(p);
    RouteThenPin(q);
  }

  /** Every named pin constant routes to its own port and index, and each
      analog name routes exactly as the port C name it aliases. */
  lemma NamedPinsRoute()
    ensures Route(D0) == Binding(PortD, 0) && Route(D1) == Binding(PortD, 1)
    ensures Route(D2) == Binding(PortD, 2) && Route(D3) == Binding(PortD, 3)
    ensures Route(D4) == Binding(PortD, 4) && Route(D5) == Binding(PortD, 5)
    ensures Route(D6) == Binding(PortD, 6) && Route(D7) == Binding(PortD, 7)
    ensures Route(B0) == Binding(PortB, 0) && Route(B1) == Binding(PortB, 1)
    ensures Route(B2) == Binding(PortB, 2) && Route(B3) == Binding(PortB, 3)
    ensures Route(B4) == Binding(PortB, 4) && Route(B5) == Binding(PortB, 5)
    ensures Route(C0) == Binding(PortC, 0) && Route(C1) == Binding(PortC, 1)
    ensures Route(C2) == Binding(PortC, 2) && Route(C3) == Binding(PortC, 3)
    ensures Route(C4) == Binding(PortC, 4) && Route(C5) == Binding(PortC, 5)
    ensures A0 == C0 && A1 == C1 && A2 == C2 && A3 == C3 && A4 == C4 && A5 == C5
  {
  }
}
