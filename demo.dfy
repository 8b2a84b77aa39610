/** One pass of the polling loop of `main.c`: count the pressed buttons and
    run the LED pattern that count selects. */
module Demo {
  import opened Misc
  import opened Routing
  import opened RegisterBank
  import opened Leds
  import opened Buttons
  import opened Choreography
  import opened SweepEffects
  import opened LedArrays

  /** How many of the readings are true. */
  function CountPressed(pressed: seq<bool>): (n: nat)
    ensures n <= |pressed|
    ensures n == 0 <==> forall i :: 0 <= i < |pressed| ==> !pressed[i]
    ensures n == |pressed| <==> forall i :: 0 <= i < |pressed| ==> pressed[i]
    decreases |pressed|
  {
    if |pressed| == 0 then 0
    else
      var front := pressed[..|pressed| - 1];
      assert forall i :: 0 <= i < |front| ==> front[i] == pressed[i];
      CountPressed(front) + if pressed[|pressed| - 1] then 1 else 0
  }

  /** What the four buttons read in the bank `hw` holds. */
  ghost function Readings(hw: Hardware, b1: Button, b2: Button, b3: Button, b4: Button): seq<bool>
    reads hw, b1, b2, b3, b4
  {
    [Pressed(b1.Now(hw)), Pressed(b2.Now(hw)), Pressed(b3.Now(hw)), Pressed(b4.Now(hw))]
  }

  /** `num_buttons_pressed`: one `is_pressed` per button, counting the true
      answers. Nothing changes. */
  method NumButtonsPressed(hw: Hardware, b1: Button, b2: Button, b3: Button, b4: Button) returns (num: Uint8)
    ensures num == CountPressed(Readings(hw, b1, b2, b3, b4))
    ensures num <= 4
  {
    ghost var rs := Readings(hw, b1, b2, b3, b4);
    num := 0;
    var p := b1.IsPressed(hw);
    if p { num := num + 1; }
    assert num == CountPressed(rs[..1]);
    p := b2.IsPressed(hw);
    if p { num := num + 1; }
    assert rs[..2][..1] == rs[..1];
    assert num == CountPressed(rs[..2]);
    p := b3.IsPressed(hw);
    if p { num := num + 1; }
    assert rs[..3][..2] == rs[..2];
    assert num == CountPressed(rs[..3]);
    p := b4.IsPressed(hw);
    if p { num := num + 1; }
    assert rs[..4][..3] == rs[..3];
    assert rs[..4] == rs;
  }

  /** The patterns of the loop. */
  datatype Pattern = AllOff | Together | Forward | Backward | AllOn

  /** The choice of `main`: none pressed switches everything off, one blinks
      collectively, two chases forward, three backward, four switches all
      on; any other count switches everything off. */
  function Choose(pressed: nat): (p: Pattern)
    ensures p == AllOff <==> pressed == 0 || pressed > 4
    ensures p == AllOn <==> pressed == 4
  {
    if pressed == 1 then Together
    else if pressed == 2 then Forward
    else if pressed == 3 then Backward
    else if pressed == 4 then AllOn
    else AllOff
  }

  /** The delay `main` blinks with. */
  const BlinkSpeedMs: Uint16 := 100

  /** The events each pattern records on `n` LEDs. */
  function PatternEvents(p: Pattern, n: nat, ms: nat): seq<Event> {
    match p
    case AllOff => OffEvents(n)
    case Together => Collective(n, ms)
    case Forward => Chase(Ascending(n), ms)
    case Backward => Chase(Descending(n), ms)
    case AllOn => OnEvents(n)
  }

  /** The banks each pattern waits with, starting from the bank `r` and the
      bindings `bs`: none for the two sweeps, the two halves of the collective
      blink, and one bank per turn of a chase. */
  function PatternWaits(p: Pattern, r: Registers, bs: seq<Binding>): seq<Registers> {
    match p
    case AllOff => []
    case Together => CollectiveWaits(r, bs)
    case Forward => ChaseWaits(r, bs)
    case Backward => ChaseWaits(r, Picks(bs, Descending(|bs|)))
    case AllOn => []
  }

  /** Every count four buttons can produce selects its own pattern: the
      fallback branch of `main` is never taken. */
  lemma EveryCountSelected(hw: Hardware, b1: Button, b2: Button, b3: Button, b4: Button)
    ensures Choose(CountPressed(Readings(hw, b1, b2, b3, b4))) == AllOff
        <==> CountPressed(Readings(hw, b1, b2, b3, b4)) == 0
  {
  }

  /** One pass of the `while (1)` loop of `main`. Every pattern but "all on"
      ends with every LED off, the bank shows what each LED stores, and the
      waits are the ones of the chosen pattern. */
  method Poll(hw: Hardware, leds: seq<Led>, b1: Button, b2: Button, b3: Button, b4: Button)
    modifies hw, leds
    ensures BindingsOf(leds) == old(BindingsOf(leds)) && ShowAll(leds, hw.regs)
    ensures Choose(old(CountPressed(Readings(hw, b1, b2, b3, b4)))) == AllOn ==> Lights(leds, true)
    ensures Choose(old(CountPressed(Readings(hw, b1, b2, b3, b4)))) != AllOn ==> Lights(leds, false)
    ensures hw.trace == old(hw.trace)
                        + PatternEvents(Choose(old(CountPressed(Readings(hw, b1, b2, b3, b4)))), |leds|, BlinkSpeedMs)
    ensures hw.waits == old(hw.waits)
                        + PatternWaits(Choose(old(CountPressed(Readings(hw, b1, b2, b3, b4)))),
                                       old(hw.regs), old(BindingsOf(leds)))
  {
    var pressed := NumButtonsPressed(hw, b1, b2, b3, b4);
    if pressed == 0 {
      OffAll(hw, leds);
    } else if pressed == 1 {
      BlinkCollectively(hw, leds, BlinkSpeedMs);
    } else if pressed == 2 {
      BlinkForward(hw, leds, BlinkSpeedMs);
    } else if pressed == 3 {
      BlinkBackward(hw, leds, BlinkSpeedMs);
    } else if pressed == 4 {
      OnAll(hw, leds);
    } else {
      // The fallback "all off" of `main`: four buttons never count more
      // than four (`EveryCountSelected`).
      assert false;
    }
  }
}
