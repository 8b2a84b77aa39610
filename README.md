# ATmega328P digital I/O: LEDs, buttons and LED collections

This project models the digital-I/O core of a small C89 program for the
ATmega328P (Arduino Uno) and proves properties of that model. The core has four parts.

- **Register primitives** (`misc.h`): the single-bit macros `set`, `clr` and
  `read` on 8-bit registers, the `io_port` enumeration and the Arduino pin
  constants.
- **The output device** `led_t` (`led.c`): it routes a pin number to a port and a
  bit, makes the bit an output through DDRx, and drives it through PORTx. It
  keeps its on/off state in `enabled`.
- **The input device** `button_t` (`button.c`): it routes its pin the same way and
  enables the pull-up through PORTx. Its `is_pressed` reads PINx. Arming the
  pin-change interrupt sets the global flag, the group's PCIE bit in PCICR and
  the pin's bit in PCMSK0/1/2. The device keeps the stored flag
  `interrupt_enabled`.
- **The LED collection** (`led_array.h`): a heap block of `led_t*` handles and
  a separately held size. It is grown and shrunk with `realloc`, which may
  fail. It is swept by `on`, `off` and `clear_content`, and by three blinking
  patterns.

The register bank is simulated. `RegisterBank.Registers` holds DDRB/C/D,
PORTB/C/D, PINB/C/D, PCICR, PCMSK0/1/2 and the global interrupt flag. The
class `RegisterBank.Hardware` holds one such value and the methods `Set`, `Clr`
and `Read` (the macros), `Sei` and `DelayMs`. `Hardware` also holds a ghost
`trace` of events: `Delay(ms)` for each `delay_ms`, and `On(i)`/`Off(i)` when a
sweep or pattern switches the LED in slot `i`. A second ghost record, `waits`,
holds the bank as it stood during each `delay_ms`.

Each device operation is stated twice:
- as a pure step on a `Config`, the bank together with the device's stored
  state (`Leds.OnStep`, `Buttons.EnableStep`, …), whose properties are lemmas;
- as a method of the device class (`Leds.Led.On`, `Buttons.Button.EnableInterrupt`, …)
  that updates `Hardware` and the object's fields. Its `ensures` ties the new
  configuration to the step of the old one.

The register effect of a whole sweep is stated bit by bit (`SweepEffects.After`):
- every touched bit holds the sweep's level;
- every other bit and the interrupt flag are unchanged.

This statement is independent of visiting order and of one LED being held in
two slots. The blinking patterns are also specified by the events they record
(`Choreography`). The fact that a chase lights at most one LED at any moment
is proved about those traces.

`LedArrayAsWritten` models three `led_array.h` macros exactly as their code is
written: `push`, `pop` and `clear_content`. Their defects are listed under
Findings. The rest of the model uses each macro's documented behaviour.
`Demo` models one pass of the polling loop in `main.c`.

Modules and files: `Misc` (misc.dfy), `Routing` (routing.dfy), `RegisterBank`
(hardware.dfy), `Leds` (led.dfy), `Buttons` (button.dfy), `SweepEffects`
(led_array_effects.dfy), `Choreography` (choreography.dfy), `LedArrays`
(led_array.dfy), `LedArrayAsWritten` (led_array_as_written.dfy), `Demo` (demo.dfy).

## Model

| member | source | states |
|---|---|---|
| Misc.ReadBit | misc.h:77-84 | `read` is true exactly when the chosen bit, shifted down to bit 0, is one |
| Misc.SetBit | misc.h:61-67 | `set` makes the chosen bit one and leaves the other seven bits as they were |
| Misc.ClrBit | misc.h:69-75 | `clr` makes the chosen bit zero and leaves the other seven bits as they were |
| Misc.SetBitAbsorbs | misc.h:67 | setting a bit that is already one changes nothing |
| Misc.ClrBitAbsorbs | misc.h:75 | clearing a bit that is already zero changes nothing |
| Misc.SetBitIdempotent | misc.h:67 | `set` twice on the same bit equals `set` once |
| Misc.ClrBitIdempotent | misc.h:75 | `clr` twice on the same bit equals `clr` once |
| Misc.ClrAfterSet | misc.h:61-75 | `clr` after `set` equals `clr` alone, and `set` after `clr` equals `set` alone |
| Misc.SetBitsCommute | misc.h:67 | two `set`s commute |
| Misc.ClrBitsCommute | misc.h:75 | two `clr`s commute |
| Misc.BitsDetermine | misc.h:77-84 | two registers on which `read` agrees for all eight bits are equal |
| Routing.Route | led.c:26-48 | routing is total: pins 0-7 give (D, pin), 8-13 give (B, pin-8), 14-19 give (C, pin-14), every other value gives (NONE, 0); the stored bit is in range for its port |
| Routing.ArduinoPin | misc.h:15-43 | the Arduino number of a bound binding is at most 19 |
| Routing.RouteThenPin | led.c:26-48 | a routed pin's binding gives back that pin number |
| Routing.PinThenRoute | led.c:26-48 | every in-range binding is the route of its own pin number |
| Routing.RoutableIsImage | led.c:26-48 | a binding is in range exactly when some `uint8_t` pin routes to it |
| Routing.RouteInjective | button.c:25-47 | two pins that route to the same bound (port, bit) are the same pin |
| Routing.NamedPinsRoute | misc.h:15-43 | each named constant Dk, Bk, Ck routes to its own port and index k, and Ak equals Ck |
| RegisterBank.GetPut | misc.h:67 | writing one register of the bank changes that register only, and not the interrupt flag |
| RegisterBank.SetLoc | misc.h:61-67 | `set` on a bank register makes that bit one and changes no other bit of the bank, nor the flag |
| RegisterBank.ClrLoc | misc.h:69-75 | `clr` on a bank register makes that bit zero and changes no other bit of the bank, nor the flag |
| RegisterBank.Extensionality | misc.h:77-84 | two banks that agree on every readable bit and on the flag are equal |
| RegisterBank.SetLocAbsorbs | misc.h:67 | `set` of a bit that is already one leaves the bank unchanged |
| RegisterBank.ClrLocAbsorbs | misc.h:75 | `clr` of a bit that is already zero leaves the bank unchanged |
| RegisterBank.Hardware.Set | misc.h:67 | the bank becomes the `set` of the given bit; the trace is unchanged |
| RegisterBank.Hardware.Clr | misc.h:75 | the bank becomes the `clr` of the given bit; the trace is unchanged |
| RegisterBank.Hardware.Read | misc.h:84 | `read` answers whether the bit is one |
| RegisterBank.Hardware.DelayMs | misc.h:91-96 | a wait leaves every register as it was, records one `Delay(ms)`, and records the bank it was spent with |
| RegisterBank.Hardware.Sei | button.c:159 | `sei` raises the global interrupt flag and changes nothing else |
| Leds.InitRegs | led.c:26-48 | `led_init` sets only the DDR bit of a bound pin; an unbound pin changes no register |
| Leds.OnRegs | led.c:121-138 | `led_on` sets only the PORT bit of a bound LED; an unbound one changes no register |
| Leds.OffRegs | led.c:145-162 | `led_off` clears only the PORT bit of a bound LED; an unbound one changes no register |
| Leds.ClearRegs | led.c:60-82 | `led_clear` clears only the DDR and the PORT bit of a bound LED; an unbound one changes no register |
| Leds.OnStep | led.c:121-138 | `led_on` keeps the binding, stores `enabled` as true, and the PORT bit of a bound LED then shows it |
| Leds.OffStep | led.c:145-162 | `led_off` keeps the binding, stores `enabled` as false, and the PORT bit of a bound LED then shows it |
| Leds.ToggleStep | led.c:171-183 | `led_toggle` flips the stored `enabled`, keeps the binding, and the PORT bit of a bound LED then shows the new value |
| Leds.ClearStep | led.c:60-82 | `led_clear` leaves the LED unbound and off, and the DDR and PORT bits of a bound LED clear |
| Leds.OnIdempotent | led.c:121-138 | two `on`s leave the same bank and flag as one |
| Leds.OffIdempotent | led.c:145-162 | two `off`s leave the same bank and flag as one |
| Leds.OnOffShow | led.c:121-162 | after `on` the LED is enabled and its PORT bit is one; after `off` it is disabled and the bit is zero |
| Leds.ToggleTwice | led.c:171-183 | two toggles restore `enabled`, and restore the whole bank when the PORT bit matched `enabled` before |
| Leds.OffAfterOn | led.c:121-162 | `on` followed by `off` leaves the bank as `off` alone |
| Leds.ClearedIsInert | led.c:60-82 | a cleared LED is unbound and off, and `on`, `off` and `toggle` then change no register |
| Leds.Led.constructor | led.c:23-53 | `led_init`: stored binding is the route of the pin, `enabled` is false, the bank changes as `InitRegs` says |
| Leds.Led.New | led.c:93-99 | `led_new`: null when allocation fails, with no register changed; otherwise a fresh initialised LED |
| Leds.Led.Clear | led.c:60-82 | the LED and the bank become `ClearStep` of their previous configuration |
| Leds.Led.Delete | led.c:108-114 | clears the LED as `led_clear` does and returns the null handle |
| Leds.Led.On | led.c:121-138 | the LED and the bank become `OnStep` of their previous configuration |
| Leds.Led.Off | led.c:145-162 | the LED and the bank become `OffStep` of their previous configuration |
| Leds.Led.Toggle | led.c:171-183 | dispatches on the stored `enabled`: off when on, on when off |
| Leds.Led.Blink | led.c:191-197 | the LED and the bank become `ToggleStep` of their previous configuration, then exactly one `Delay(blinkSpeedMs)` is recorded, and that wait is spent with the bank the toggle left |
| Buttons.InitRegs | button.c:22-52 | `button_init` sets only the PORT (pull-up) bit of a bound pin; an unbound pin changes no register |
| Buttons.EnableRegs | button.c:157-179 | the global flag is raised; for a bound button the PCIE bit of its group (B: PCIE0, C: PCIE1, D: PCIE2) and its PCMSK bit are set and nothing else changes |
| Buttons.DisableRegs | button.c:187-204 | only the PCMSK bit of a bound button is cleared; PCICR and the flag are untouched |
| Buttons.ClearRegs | button.c:59-79 | `button_clear` clears only the PCMSK and the PORT bit of a bound button |
| Buttons.EnableStep | button.c:157-179 | enabling keeps the binding, stores `interrupt_enabled` as true, raises the global flag and sets a bound button's PCMSK bit |
| Buttons.DisableStep | button.c:187-204 | disabling keeps the binding, stores `interrupt_enabled` as false, leaves the global flag and clears a bound button's PCMSK bit |
| Buttons.ToggleStep | button.c:215-227 | toggling flips the stored `interrupt_enabled` and keeps the binding |
| Buttons.ClearStep | button.c:59-79 | `button_clear` leaves the button unbound and disarmed and the global flag as it was |
| Buttons.Pressed | button.c:119-137 | an unbound button never reads as pressed, whatever the bank; a bound one reads as pressed exactly when its bit of its port's PIN register is one |
| Buttons.StepsKeepConsistent | button.c:161-202 | after enable, disable, toggle or clear, `interrupt_enabled` of a bound button equals its PCMSK bit |
| Buttons.FlagIrrelevant | button.c:159 | raising the global flag changes no register bit |
| Buttons.PressedReadsPin | button.c:119-137 | `is_pressed` of a bound button follows exactly the PIN bit at its index |
| Buttons.ClearDisarms | button.c:59-79 | a cleared button is unbound and disarmed, reads as not pressed, and its PCMSK and PORT bits are zero |
| Buttons.EnableIdempotent | button.c:157-179 | enabling twice is enabling once |
| Buttons.DisableIdempotent | button.c:187-204 | disabling twice is disabling once |
| Buttons.ToggleTwice | button.c:215-227 | two toggles restore `interrupt_enabled`; from a consistent bound state they change at most the PCIE bit and the flag |
| Buttons.EnableWhenArmed | button.c:157-179 | with the flag, the PCIE bit and the PCMSK bit already set, enabling changes nothing |
| Buttons.Button.constructor | button.c:22-52 | `button_init`: stored binding is the route of the pin, `interrupt_enabled` is false, the bank changes as `InitRegs` says |
| Buttons.Button.New | button.c:90-96 | `button_new`: null when allocation fails, with no register changed; otherwise a fresh initialised button |
| Buttons.Button.Clear | button.c:59-79 | the button and the bank become `ClearStep` of their previous configuration |
| Buttons.Button.Delete | button.c:105-111 | clears the button as `button_clear` does and returns the null handle |
| Buttons.Button.IsPressed | button.c:119-137 | answers `Pressed` of the current configuration and changes nothing |
| Buttons.Button.EnableInterrupt | button.c:157-179 | the button and the bank become `EnableStep` of their previous configuration |
| Buttons.Button.DisableInterrupt | button.c:187-204 | the button and the bank become `DisableStep` of their previous configuration |
| Buttons.Button.ToggleInterrupt | button.c:215-227 | dispatches on the stored `interrupt_enabled`: disable when set, enable when clear |
| SweepEffects.BitsMember | led_array.h:124-129 | a bit is among the bits of a list of bindings exactly when some bound binding in it has that bit |
| SweepEffects.SweptMeansAfter | led_array.h:124-142 | applying the single-LED operation to each binding in turn leaves every touched bit at the sweep's level and every other bit, and the flag, as before |
| SweepEffects.AfterDetermined | led_array.h:124-142 | the bank before and the bindings determine the bank after a sweep |
| SweepEffects.AfterOnThenOff | led_array.h:198-203 | an `on` sweep followed by an `off` sweep over the same LEDs has the effect of the `off` sweep alone |
| SweepEffects.AfterReaches | led_array.h:124-142 | after a sweep every bound LED's PORT bit is at the sweep's level, and after a clear its DDR bit is zero |
| SweepEffects.ChaseWaits | led_array.h:157-185 | a chase over n bindings waits n times |
| SweepEffects.ChaseWaitsAt | led_array.h:159-163 | the k-th wait of a chase is spent with LED k switched on, after the LEDs before it were each switched on and off |
| SweepEffects.ChaseWaitShows | led_array.h:159-163 | during the k-th wait LED k is lit, each LED visited before it is dark unless it shares LED k's PORT bit, and every bit not yet visited and the interrupt flag are as before the chase |
| SweepEffects.CollectiveWaits | led_array.h:198-203 | the collective blink waits exactly twice |
| SweepEffects.CollectiveWaitsShow | led_array.h:198-203 | during the first wait every LED is lit, during the second every LED is dark; every other bit and the flag are as before |
| Choreography.Ascending | led_array.h:126 | slots 0 to n-1 in index order |
| Choreography.Descending | led_array.h:180 | slots n-1 down to 0 |
| Choreography.OnEvents | led_array.h:124-129 | the events of `on` over n slots are `On(0)`, …, `On(n-1)` |
| Choreography.OffEvents | led_array.h:137-142 | the events of `off` over n slots are `Off(0)`, …, `Off(n-1)` |
| Choreography.TurnLit | led_array.h:160-162 | within one LED's turn (on, wait, off) that LED is lit after `on` and through the wait, and dark again after `off` |
| Choreography.ChaseShape | led_array.h:157-164 | a chase records, for each listed slot k in order, `On(k)`, `Delay(ms)`, `Off(k)` |
| Choreography.ChaseLightsOneAtATime | led_array.h:157-185 | at every point of a chase at most one slot is lit: none between turns, exactly the current slot inside a turn |
| Choreography.OnEventsLight | led_array.h:124-129 | `on` over n slots lights exactly slots 0 to n-1 besides those already lit |
| Choreography.OffEventsDarken | led_array.h:137-142 | `off` over n slots darkens slots 0 to n-1 |
| Choreography.Collective | led_array.h:198-203 | the collective blink of n LEDs has 2n+2 events, with a wait right after the n `on` events and another at the end |
| Choreography.CollectiveShape | led_array.h:198-203 | the collective blink has 2n+2 events: exactly two delays, every `Off` after every `On`, all n slots lit at the first delay and none at the end |
| LedArrays.Resized | led_array.h:64 | `realloc` to n slots keeps the old slots that fit, and the new slots hold no LED |
| LedArrays.ResizedGrowShrink | led_array.h:85-116 | growing by one slot and shrinking back returns the original slots |
| LedArrays.ResizedPrefix | led_array.h:62-72 | shrinking keeps a prefix; resizing to the same size changes nothing |
| LedArrays.LedArray.constructor | led_array.h:19 | `led_array_new`: on success a fresh block of `size` empty slots, otherwise no block |
| LedArrays.LedArray.Delete | led_array.h:30-33 | frees the block and nulls the pointer; the LEDs and the size variable are untouched |
| LedArrays.LedArray.Resize | led_array.h:62-72 | on success returns 0 with a fresh block of `newSize` slots, the kept slots unchanged, and the size updated; on failure returns 1 with block and size unchanged |
| LedArrays.LedArray.Reallocate | led_array.h:64 | a successful `realloc`: a fresh block holding the resized slots |
| LedArrays.LedArray.Push | led_array.h:74-84 | for any handle, null included: on success returns 0, with the old slots, then `newLed`, and size + 1; on failure returns 1 and leaves block and size unchanged |
| LedArrays.LedArray.Pop | led_array.h:94-101 | size of at most one: the block is freed and the size becomes 0; otherwise, on success, returns 0, drops the last slot and decreases the size; on failure returns 1 with no change |
| LedArrays.ClearContent | led_array.h:35-44 | every LED of the collection ends cleared, and every DDR and PORT bit of the original bindings is zero, all other bits unchanged; the trace is unchanged |
| LedArrays.OnAll | led_array.h:118-129 | bindings unchanged; every LED enabled and its PORT bit one; the bank as a bitwise `on` sweep; the trace gains `On(0)`, …, `On(n-1)` |
| LedArrays.OffAll | led_array.h:131-142 | bindings unchanged; every LED disabled and its PORT bit zero; the bank as a bitwise `off` sweep; the trace gains `Off(0)`, …, `Off(n-1)` |
| LedArrays.BlinkForward | led_array.h:157-164 | bindings unchanged; every LED off and shown so; the bank as after an `off` sweep; the trace gains the chase over slots 0 to n-1; the waits are `ChaseWaits` of the slots in index order, one bank per LED with that LED on |
| LedArrays.BlinkBackward | led_array.h:178-185 | bindings unchanged; every LED off and shown so; the bank as after an `off` sweep; the trace gains the chase over slots n-1 down to 0 (nothing for n = 0); the waits are `ChaseWaits` of the slots in that order |
| LedArrays.BlinkCollectively | led_array.h:198-203 | bindings unchanged; every LED off and shown so; the bank as after an `off` sweep; the trace gains `on` events, one delay, `off` events, one delay; the two waits are spent with the bank after the `on` sweep and then after the `off` sweep (`CollectiveWaits`) |
| LedArrays.PicksDescending | led_array.h:178-185 | visiting the slots backwards touches the same bits as visiting them forwards |
| LedArrayAsWritten.PushAsWritten | led_array.h:85-92 | `push` as written is undefined exactly when `realloc` fails |
| LedArrayAsWritten.PushAsWrittenFails | led_array.h:88-90 | whenever `realloc` fails, `push` as written writes through null; it never returns 1 with the collection intact |
| LedArrayAsWritten.PushAsWrittenOnSuccess | led_array.h:85-92 | when `realloc` succeeds, `push` as written appends `newLed`, counts it and returns 0 |
| LedArrayAsWritten.PopAsWritten | led_array.h:102-116 | no run of `pop` as written is defined: an undeclared function for size at most one, `realloc` of the caller's pointer variable otherwise |
| LedArrayAsWritten.ClearContentAsWritten | led_array.h:45-50 | `clear_content` as written is defined only for size 0, where it does nothing |
| LedArrayAsWritten.Counterexamples | led_array.h:45-116 | concrete inputs that reach each defect |
| Demo.CountPressed | main.c:17-28 | the count is at most the number of buttons; it is 0 exactly when none is pressed, and full exactly when all are |
| Demo.NumButtonsPressed | main.c:17-28 | returns the number of the four buttons that read as pressed, at most 4, and changes nothing |
| Demo.Choose | main.c:65-88 | "all off" is chosen exactly for a count of 0 or above 4, and "all on" exactly for a count of 4 |
| Demo.EveryCountSelected | main.c:65-88 | with four buttons the "all off" pattern is chosen exactly when none is pressed |
| Demo.Poll | main.c:61-89 | after "all on" every LED is on, after every other pattern every LED is off; bindings unchanged and every LED shown as stored; the trace gains the chosen pattern's events and the waits the chosen pattern's banks (`PatternWaits`) |

## Left out

- Interrupt handling: the PCINT vectors, the handlers and the asynchronous interrupt context. Only the bits and the flag that the code writes are modelled. `sei` only raises a flag.
- `delay_ms` (misc.h:91-96) is a busy wait. It is modelled as one `Delay(ms)` event, plus a ghost record of the bank during the wait, with no other effect. How long the wait takes is not modelled.
- `malloc`, `realloc` and `free` belong to the C library. A boolean `allocOk` says whether an allocation succeeds. A success yields fresh storage, and a freed block simply stops being referenced.
- The PIN registers are driven by the hardware. Their values are inputs to the model, and the model never writes them. The register addresses of `<avr/io.h>` are not modelled.
- `read` (misc.h:84) casts the masked value to the enumerated `bool` of misc.h:48. This gives the mask itself (for example 4), not 1. The model returns a truth value, and every caller only tests truthiness.
- The vtables of `led_t` and `button_t` (led.c:204-215, button.c:235-246) become plain methods of the classes.
- The `pin` field is a `uint8_t` in C. The model stores it as a bit index 0-7, the only values routing stores.
- The bank is one value held by `Hardware`, not one variable per register.
- The sweeps and patterns take `self` and `size` as the sequence of the handles in the first `size` slots. They never write the block. Null handles, which the C code would dereference, cannot be passed.
- `led_array_blink_backward` (led_array.h:180) steps its pointer below the block to end the loop. The model uses an index that counts down instead.
- `led_array_new` and `led_array_resize` multiply the pointer size by an unparenthesised macro argument (led_array.h:19, 64). An argument such as `n + 1` would request the wrong byte count. The model counts slots, not bytes, and does not capture this.
- LedArrays.LedArray.constructor: on a failed `malloc` the model also records a size of 0. `main.c` keeps its own size variable for this.
- LedArrays.Resized: the slots that `malloc` (led_array.h:19) and a growing `realloc` (led_array.h:64) add are indeterminate in C. The model fills them with null, so the constructor, `Resize` and `Reallocate` state a definite content that C does not promise. `main.c` creates its collection with no slots and grows it only by `push`, which fills the added slot.
- In `main.c`, only one pass of the `while (1)` loop (main.c:61-89) is modelled. The setup that creates the devices and pushes the five LEDs (main.c:39-59) is not a member of its own. It is made of the modelled `New`, constructor and `Push` operations.

## Findings

| source | as written | input that shows it | evidently intended | confidence | as-written member | corrected member |
|---|---|---|---|---|---|---|
| led_array.h:88-90 | when `realloc` fails, only the return value is set; the new LED is then stored through the null copy, the size is increased, and `*self` is overwritten with null | any push whose `realloc` fails, e.g. onto the empty collection `main` starts with | return 1 and leave `*self` and `*size` unchanged, as the doc comment says | high; not executed | LedArrayAsWritten.PushAsWrittenFails | LedArrays.LedArray.Push |
| led_array.h:105-111 | the size-at-most-one branch calls `led_array`, which is declared nowhere; the other branch reallocates `self` (the address of the caller's pointer) instead of `*self`, and assigns the new block to `self` rather than `*self`, which for the `&leds` argument of `main.c` is not an lvalue and does not compile | pop from a collection of 1 LED, or of 5 LEDs | free the block and set the size to 0, or shrink `*self` by one slot | high; not executed | LedArrayAsWritten.PopAsWritten | LedArrays.LedArray.Pop |
| led_array.h:46-48 | the loop cursor starts at the null pointer rather than at the block, and `self` is never used, so the first `led_clear(*i)` dereferences null | clear_content of a collection of 1 LED | clear every LED held in the block | high; not executed | LedArrayAsWritten.ClearContentAsWritten | LedArrays.ClearContent |
