/** The dynamic LED collection of `led_array.h`: a heap block of LED
    handles together with the variable that stores its size, the operations
    that reallocate it, and the sweeps and blinking patterns over its LEDs. */
module LedArrays {
  import opened Misc
  import opened Routing
  import opened RegisterBank
  import opened Leds
  import opened SweepEffects
  import opened Choreography

  /** The bindings of a sequence of LED handles; an empty slot counts as
      unbound. */
  ghost function BindingsOf(leds: seq<Led?>): (bs: seq<Binding>)
    reads leds
    ensures |bs| == |leds|
    ensures forall j :: 0 <= j < |leds| ==> bs[j] == if leds[j] == null then Unbound else leds[j].State().binding
    decreases |leds|
  {
    if |leds| == 0 then []
    else
      var last := leds[|leds| - 1];
      BindingsOf(leds[..|leds| - 1]) + [if last == null then Unbound else last.State().binding]
  }

  /** The contents of a block after `realloc` to `n` slots: the old slots
      that fit are kept, the new ones hold no LED yet. */
  function Resized(slots: seq<Led?>, n: nat): (s: seq<Led?>)
    ensures |s| == n
    ensures forall j :: 0 <= j < n && j < |slots| ==> s[j] == slots[j]
    ensures forall j :: |slots| <= j < n ==> s[j] == null
  {
    seq(n, j requires 0 <= j < n => if j < |slots| then slots[j] else null)
  }

  /** Growing by one slot and then shrinking by one gives back the slots. */
  lemma ResizedGrowShrink(slots: seq<Led?>)
    ensures Resized(Resized(slots, |slots| + 1), |slots|) == slots
  {
  }

  /** Resizing is a truncation followed by padding: resizing down keeps a
      prefix, resizing to the same size changes nothing. */
  lemma ResizedPrefix(slots: seq<Led?>, n: nat)
    ensures n <= |slots| ==> Resized(slots, n) == slots[..n]
    ensures Resized(slots, |slots|) == slots
  {
  }

  /** The pointer `led_t**` and the `size_t` variable the C caller pairs with
      it. `storage` is null when no block is held (after `led_array_delete`,
      or when `malloc` failed). */
  class LedArray {
    var storage: array?<Led?>
    var size: nat

    /** A block held by the collection has exactly `size` slots. */
    ghost predicate Valid()
      reads this
    {
      storage != null ==> storage.Length == size
    }

    /** The LED handles in the block, none when no block is held. */
    function Slots(): seq<Led?>
      reads this, storage
    {
      if storage == null then [] else storage[..]
    }

    /** `led_array_new(size)`: `malloc` a block of `size` slots. The slots of a
        fresh block hold no LED yet. */
    constructor (size: nat, allocOk: bool)
      ensures Valid()
      ensures !allocOk ==> storage == null && this.size == 0
      ensures allocOk ==> storage != null && fresh(storage) && this.size == size
      ensures allocOk ==> storage[..] == Resized([], size)
    {
      if allocOk {
        storage := new Led?[size](j => null);
        this.size := size;
      } else {
        storage := null;
        this.size := 0;
      }
    }

    /** `led_array_delete`: free the block and null the pointer. The LEDs are
        not cleared and the size variable is not reset. */
    method Delete()
      modifies this
      ensures storage == null && size == old(size)
    {
      storage := null;
    }

    /** `led_array_resize`: `realloc` the block to `newSize` slots. On success
        the kept slots are unchanged, the new ones empty, the size variable is
        `newSize` and 0 is returned; on failure 1 is returned and nothing
        changes. */
    method Resize(newSize: nat, allocOk: bool) returns (ret: int)
      requires Valid()
      modifies this
      ensures Valid()
      ensures !allocOk ==> ret == 1 && storage == old(storage) && size == old(size)
      ensures allocOk ==> ret == 0 && storage != null && fresh(storage) && size == newSize
      ensures allocOk ==> storage[..] == Resized(old(Slots()), newSize)
    {
      if !allocOk {
        return 1;
      }
      var copy := Reallocate(newSize);
      storage := copy;
      size := newSize;
      ret := 0;
    }

    /** The new block `realloc` returns on success. */
    method Reallocate(n: nat) returns (copy: array<Led?>)
      ensures fresh(copy) && copy[..] == Resized(Slots(), n)
    {
      var slots := Slots();
      copy := new Led?[n](j requires 0 <= j => if j < |slots| then slots[j] else null);
    }

    /** `led_array_push` as its documentation describes it: grow the block by
        one slot holding `newLed` and count it, returning 0; when `realloc`
        fails return 1 and leave the collection untouched. */
    method Push(newLed: Led?, allocOk: bool) returns (ret: int)
      requires Valid()
      modifies this
      ensures Valid()
      ensures !allocOk ==> ret == 1 && storage == old(storage) && size == old(size)
      ensures allocOk ==> ret == 0 && storage != null && fresh(storage) && size == old(size) + 1
      ensures allocOk ==> storage[..] == Resized(old(Slots()), old(size)) + [newLed]
    {
      if !allocOk {
        return 1;
      }
      var copy := Reallocate(size + 1);
      copy[size] := newLed;
      storage := copy;
      size := size + 1;
      ret := 0;
    }

    /** `led_array_pop` as its documentation describes it: with one slot or
        none the block is freed and the size becomes 0; otherwise the block
        shrinks by one slot, returning 0, or stays as it is when `realloc`
        fails, returning 1. The removed LED is not cleared. */
    method Pop(allocOk: bool) returns (ret: int)
      requires Valid()
      modifies this
      ensures Valid()
      ensures old(size) <= 1 ==> ret == 0 && storage == null && size == 0
      ensures old(size) > 1 && !allocOk ==> ret == 1 && storage == old(storage) && size == old(size)
      ensures old(size) > 1 && allocOk ==> ret == 0 && storage != null && fresh(storage) && size == old(size) - 1
      ensures old(size) > 1 && allocOk ==> storage[..] == Resized(old(Slots()), old(size) - 1)
    {
      ret := 0;
      if size <= 1 {
        Delete();
        size := 0;
      } else if !allocOk {
        ret := 1;
      } else {
        var copy := Reallocate(size - 1);
        storage := copy;
        size := size - 1;
      }
    }

  }

  // The sweeps take `self` and `size` of the C macros as the sequence of the
  // handles held in the first `size` slots of the block: they read the block
  // and the handles, never write them, and dereference every slot.

  /** `led_array_clear_content`: `led_clear` on every LED of the
      collection, in index order. The block and its size are unchanged.
      An LED held in two slots is cleared at the first one and is already
      unbound at the second. */
  method ClearContent(hw: Hardware, leds: seq<Led>)
    modifies hw, leds
    ensures Cleared(leds)
    ensures After(ClearSweep, old(hw.regs), hw.regs, old(BindingsOf(leds)))
    ensures hw.trace == old(hw.trace) && hw.waits == old(hw.waits)
  {
    ghost var bs0 := BindingsOf(leds);
    ghost var r0 := hw.regs;
    ghost var seen: seq<Binding> := [];
    var i := 0;
    while i < |leds|
      invariant 0 <= i <= |leds|
      invariant ClearProgress(hw, leds, i, bs0, r0, seen, old(hw.trace))
      invariant hw.waits == old(hw.waits)
    {
      seen := ClearSlot(hw, leds, i, bs0, r0, seen, old(hw.trace));
      i := i + 1;
    }
    ClearDone(hw, leds, bs0, r0, seen, old(hw.trace));
  }

  /** `led_array_on`: `on` for every LED in index order. Afterwards every
      LED is on and its PORT bit shows it. */
  method OnAll(hw: Hardware, leds: seq<Led>)
    modifies hw, leds
    ensures BindingsOf(leds) == old(BindingsOf(leds))
    ensures Lights(leds, true) && ShowAll(leds, hw.regs)
    ensures After(OnSweep, old(hw.regs), hw.regs, old(BindingsOf(leds)))
    ensures hw.trace == old(hw.trace) + OnEvents(|leds|)
    ensures hw.waits == old(hw.waits)
  {
    ghost var bs0 := BindingsOf(leds);
    ghost var r0 := hw.regs;
    var i := 0;
    while i < |leds|
      invariant 0 <= i <= |leds|
      invariant SwitchProgress(true, hw, leds, i, bs0, r0, old(hw.trace))
      invariant hw.waits == old(hw.waits)
    {
      SwitchSlot(hw, leds, i, true, bs0, r0, old(hw.trace));
      i := i + 1;
    }
    SwitchDone(true, hw, leds, bs0, r0, old(hw.trace));
  }

  /** `led_array_off`: `off` for every LED in index order. Afterwards every
      LED is off and its PORT bit shows it. */
  method OffAll(hw: Hardware, leds: seq<Led>)
    modifies hw, leds
    ensures BindingsOf(leds) == old(BindingsOf(leds))
    ensures Lights(leds, false) && ShowAll(leds, hw.regs)
    ensures After(OffSweep, old(hw.regs), hw.regs, old(BindingsOf(leds)))
    ensures hw.trace == old(hw.trace) + OffEvents(|leds|)
    ensures hw.waits == old(hw.waits)
  {
    ghost var bs0 := BindingsOf(leds);
    ghost var r0 := hw.regs;
    var i := 0;
    while i < |leds|
      invariant 0 <= i <= |leds|
      invariant SwitchProgress(false, hw, leds, i, bs0, r0, old(hw.trace))
      invariant hw.waits == old(hw.waits)
    {
      SwitchSlot(hw, leds, i, false, bs0, r0, old(hw.trace));
      i := i + 1;
    }
    SwitchDone(false, hw, leds, bs0, r0, old(hw.trace));
  }

  /** `led_array_blink_forward`: for slots 0 to size-1 in turn, on, wait,
      off. Each wait is spent with the bank `ChaseWaits` describes; every LED
      ends off, with the bank as after an `off` sweep. */
  method BlinkForward(hw: Hardware, leds: seq<Led>, blinkSpeedMs: Uint16)
    modifies hw, leds
    ensures BindingsOf(leds) == old(BindingsOf(leds))
    ensures Lights(leds, false) && ShowAll(leds, hw.regs)
    ensures After(OffSweep, old(hw.regs), hw.regs, old(BindingsOf(leds)))
    ensures hw.trace == old(hw.trace) + Chase(Ascending(|leds|), blinkSpeedMs)
    ensures hw.waits == old(hw.waits) + ChaseWaits(old(hw.regs), old(BindingsOf(leds)))
  {
    ghost var bs0 := BindingsOf(leds);
    ghost var r0 := hw.regs;
    ghost var order := Ascending(|leds|);
    var i := 0;
    while i < |leds|
      invariant 0 <= i <= |leds|
      invariant BlinkProgress(hw, leds, i, order, bs0, r0, old(hw.trace), old(hw.waits), blinkSpeedMs)
    {
      BlinkSlot(hw, leds, i, blinkSpeedMs, i, order, bs0, r0, old(hw.trace), old(hw.waits));
      i := i + 1;
    }
    BlinkDone(true, hw, leds, order, bs0, r0, old(hw.trace), old(hw.waits), blinkSpeedMs);
    PicksAscending(bs0);
  }

  /** `led_array_blink_backward`: the same for slots size-1 down to 0. */
  method BlinkBackward(hw: Hardware, leds: seq<Led>, blinkSpeedMs: Uint16)
    modifies hw, leds
    ensures BindingsOf(leds) == old(BindingsOf(leds))
    ensures Lights(leds, false) && ShowAll(leds, hw.regs)
    ensures After(OffSweep, old(hw.regs), hw.regs, old(BindingsOf(leds)))
    ensures hw.trace == old(hw.trace) + Chase(Descending(|leds|), blinkSpeedMs)
    ensures hw.waits == old(hw.waits) + ChaseWaits(old(hw.regs), Picks(old(BindingsOf(leds)), Descending(|leds|)))
  {
    ghost var bs0 := BindingsOf(leds);
    ghost var r0 := hw.regs;
    ghost var order := Descending(|leds|);
    var i := |leds|;
    ghost var done := 0;
    while i > 0
      invariant 0 <= i <= |leds| && done == |leds| - i
      invariant BlinkProgress(hw, leds, done, order, bs0, r0, old(hw.trace), old(hw.waits), blinkSpeedMs)
    {
      BlinkSlot(hw, leds, i - 1, blinkSpeedMs, done, order, bs0, r0, old(hw.trace), old(hw.waits));
      i := i - 1;
      done := done + 1;
    }
    BlinkDone(false, hw, leds, order, bs0, r0, old(hw.trace), old(hw.waits), blinkSpeedMs);
  }

  /** `led_array_blink_collectively`: all on, wait, all off, wait. */
  method BlinkCollectively(hw: Hardware, leds: seq<Led>, blinkSpeedMs: Uint16)
    modifies hw, leds
    ensures BindingsOf(leds) == old(BindingsOf(leds))
    ensures Lights(leds, false) && ShowAll(leds, hw.regs)
    ensures After(OffSweep, old(hw.regs), hw.regs, old(BindingsOf(leds)))
    ensures hw.trace == old(hw.trace) + Collective(|leds|, blinkSpeedMs)
    ensures hw.waits == old(hw.waits) + CollectiveWaits(old(hw.regs), old(BindingsOf(leds)))
  {
    ghost var r0, t0, w0 := hw.regs, hw.trace, hw.waits;
    ghost var bs := BindingsOf(leds);
    SwitchAndWait(hw, leds, true, blinkSpeedMs);
    ghost var r1 := hw.regs;
    SwitchAndWait(hw, leds, false, blinkSpeedMs);
    AfterOnThenOff(r0, r1, hw.regs, bs);
    CollectiveTrace(t0, |leds|, blinkSpeedMs);
    CollectiveBanks(r0, r1, hw.regs, bs, w0);
  }

  /** One half of the collective blink: an `on` (or `off`) sweep, then a wait
      spent with the bank the sweep left. */
  method SwitchAndWait(hw: Hardware, leds: seq<Led>, on: bool, ms: Uint16)
    modifies hw, leds
    ensures BindingsOf(leds) == old(BindingsOf(leds))
    ensures Lights(leds, on) && ShowAll(leds, hw.regs)
    ensures After(if on then OnSweep else OffSweep, old(hw.regs), hw.regs, old(BindingsOf(leds)))
    ensures hw.trace == old(hw.trace) + (if on then OnEvents(|leds|) else OffEvents(|leds|)) + [Delay(ms)]
    ensures hw.waits == old(hw.waits) + [hw.regs]
  {
    if on {
      OnAll(hw, leds);
    } else {
      OffAll(hw, leds);
    }
    ghost var r, bs := hw.regs, BindingsOf(leds);
    hw.DelayMs(ms);
    assert hw.regs == r && BindingsOf(leds) == bs;
  }

  /** The events of `led_array_blink_collectively`, appended one call at a time. */
  lemma CollectiveTrace(t0: seq<Event>, n: nat, ms: nat)
    ensures t0 + OnEvents(n) + [Delay(ms)] + OffEvents(n) + [Delay(ms)] == t0 + Collective(n, ms)
  {
  }

  /** The banks after the two sweeps of the collective blink are those
      `CollectiveWaits` names. */
  lemma CollectiveBanks(r0: Registers, r1: Registers, r2: Registers, bs: seq<Binding>, w0: seq<Registers>)
    requires After(OnSweep, r0, r1, bs) && After(OffSweep, r1, r2, bs)
    ensures w0 + [r1] + [r2] == w0 + CollectiveWaits(r0, bs)
  {
    SweptMeansAfter(OnSweep, r0, bs);
    AfterDetermined(OnSweep, r0, r1, Swept(OnSweep, r0, bs), bs);
    SweptMeansAfter(OffSweep, r1, bs);
    AfterDetermined(OffSweep, r1, r2, Swept(OffSweep, r1, bs), bs);
  }

  /** Every handle of `leds` is an LED, and each is on (or each is off). */
  ghost predicate Lights(leds: seq<Led?>, on: bool)
    reads leds
  {
    forall j :: 0 <= j < |leds| ==> leds[j] != null && leds[j].enabled == on
  }

  /** Every handle of `leds` is an LED in the state `led_clear` leaves. */
  ghost predicate Cleared(leds: seq<Led?>)
    reads leds
  {
    forall j :: 0 <= j < |leds| ==> leds[j] != null && leds[j].State() == ClearedLed
  }

  /** The PORT bit of every bound LED of `leds` shows its stored state. */
  ghost predicate ShowAll(leds: seq<Led?>, regs: Registers)
    reads leds
  {
    forall j :: 0 <= j < |leds| ==> leds[j] != null ==> Shows(Config(regs, leds[j].State()))
  }

  /** Every handle of `leds` is an LED, bound as `bs0` says. */
  ghost predicate Holds(leds: seq<Led?>, bs0: seq<Binding>)
    reads leds
  {
    |leds| == |bs0| && forall j :: 0 <= j < |leds| ==> leds[j] != null && leds[j].State().binding == bs0[j]
  }

  /** An `on` (or `off`) sweep that has done slots 0 to i-1. */
  ghost predicate SwitchProgress(on: bool, hw: Hardware, leds: seq<Led?>, i: nat, bs0: seq<Binding>,
                                 r0: Registers, t0: seq<Event>)
    reads hw, leds
  {
    && i <= |leds|
    && Holds(leds, bs0)
    && (forall j :: 0 <= j < i ==> leds[j].enabled == on)
    && hw.regs == Swept(if on then OnSweep else OffSweep, r0, bs0[..i])
    && hw.trace == t0 + (if on then OnEvents(i) else OffEvents(i))
  }

  /** One slot of `led_array_on` or `led_array_off`. */
  method SwitchSlot(hw: Hardware, leds: seq<Led?>, i: nat, on: bool,
                    ghost bs0: seq<Binding>, ghost r0: Registers, ghost t0: seq<Event>)
    requires i < |leds| && SwitchProgress(on, hw, leds, i, bs0, r0, t0)
    modifies hw, leds[i]
    ensures SwitchProgress(on, hw, leds, i + 1, bs0, r0, t0)
    ensures hw.waits == old(hw.waits)
  {
    if on {
      leds[i].On(hw);
      hw.trace := hw.trace + [On(i)];
    } else {
      leds[i].Off(hw);
      hw.trace := hw.trace + [Off(i)];
    }
    SwitchStep(bs0, i, r0, t0);
  }

  /** Extending an `on` or `off` sweep by its next slot. */
  lemma SwitchStep(bs0: seq<Binding>, i: nat, r0: Registers, t0: seq<Event>)
    requires i < |bs0|
    ensures t0 + OnEvents(i) + [On(i)] == t0 + OnEvents(i + 1)
    ensures t0 + OffEvents(i) + [Off(i)] == t0 + OffEvents(i + 1)
    ensures Swept(OnSweep, r0, bs0[..i + 1]) == OnRegs(Swept(OnSweep, r0, bs0[..i]), bs0[i])
    ensures Swept(OffSweep, r0, bs0[..i + 1]) == OffRegs(Swept(OffSweep, r0, bs0[..i]), bs0[i])
  {
    assert OnEvents(i + 1) == OnEvents(i) + [On(i)];
    assert OffEvents(i + 1) == OffEvents(i) + [Off(i)];
    assert bs0[..i + 1][..i] == bs0[..i];
  }

  /** A finished `on` or `off` sweep: the bank and the LEDs as the sweep's
      specification says. */
  lemma SwitchDone(on: bool, hw: Hardware, leds: seq<Led?>, bs0: seq<Binding>, r0: Registers, t0: seq<Event>)
    requires SwitchProgress(on, hw, leds, |leds|, bs0, r0, t0)
    ensures BindingsOf(leds) == bs0
    ensures Lights(leds, on) && ShowAll(leds, hw.regs)
    ensures hw.regs == Swept(if on then OnSweep else OffSweep, r0, bs0)
    ensures After(if on then OnSweep else OffSweep, r0, hw.regs, bs0)
  {
    var op := if on then OnSweep else OffSweep;
    assert bs0[..|leds|] == bs0;
    SweptMeansAfter(op, r0, bs0);
    forall j | 0 <= j < |leds|
      ensures Shows(Config(hw.regs, leds[j].State()))
    {
      if IsBound(bs0[j]) {
        AfterReaches(op, r0, hw.regs, bs0, j);
      }
    }
  }

  /** The bindings of the slots `order` lists, in that order. */
  function Picks(bs: seq<Binding>, order: seq<nat>): (p: seq<Binding>)
    requires forall m :: 0 <= m < |order| ==> order[m] < |bs|
    ensures |p| == |order| && forall m :: 0 <= m < |order| ==> p[m] == bs[order[m]]
  {
    seq(|order|, m requires 0 <= m < |order| => bs[order[m]])
  }

  lemma PicksAscending(bs: seq<Binding>)
    ensures Picks(bs, Ascending(|bs|)) == bs
  {
  }

  /** Visiting the slots from the last to the first touches the same bits
      as visiting them from the first to the last. */
  lemma {:induction false} PicksDescending(bs: seq<Binding>)
    ensures forall op :: Touched(op, Picks(bs, Descending(|bs|))) == Touched(op, bs)
    decreases |bs|
  {
    var n := |bs|;
    if n > 0 {
      var front := bs[..n - 1];
      PicksDescending(front);
      assert Picks(bs, Descending(n)) == [bs[n - 1]] + Picks(front, Descending(n - 1));
      assert bs == front + [bs[n - 1]];
      forall op
        ensures Touched(op, Picks(bs, Descending(n))) == Touched(op, bs)
      {
        TouchedOne(op, Picks(front, Descending(n - 1)), bs[n - 1]);
        TouchedOne(op, front, bs[n - 1]);
      }
    }
  }

  /** A blinking sweep over the slots `order` that has done its first k turns. */
  ghost predicate BlinkProgress(hw: Hardware, leds: seq<Led?>, k: nat, order: seq<nat>, bs0: seq<Binding>,
                                r0: Registers, t0: seq<Event>, w0: seq<Registers>, ms: nat)
    reads hw, leds
  {
    && k <= |order|
    && Holds(leds, bs0)
    && (forall m :: 0 <= m < |order| ==> order[m] < |leds|)
    && (forall m :: 0 <= m < k ==> !leds[order[m]].enabled)
    && hw.regs == Swept(OffSweep, r0, Picks(bs0, order[..k]))
    && hw.trace == t0 + Chase(order[..k], ms)
    && hw.waits == w0 + ChaseWaits(r0, Picks(bs0, order[..k]))
  }

  /** One turn of a blinking sweep: `on`, `delay_ms`, `off`. */
  method BlinkSlot(hw: Hardware, leds: seq<Led?>, slot: nat, ms: Uint16, ghost k: nat, ghost order: seq<nat>,
                   ghost bs0: seq<Binding>, ghost r0: Registers, ghost t0: seq<Event>, ghost w0: seq<Registers>)
    requires k < |order| && slot == order[k] && BlinkProgress(hw, leds, k, order, bs0, r0, t0, w0, ms)
    modifies hw, leds[slot]
    ensures BlinkProgress(hw, leds, k + 1, order, bs0, r0, t0, w0, ms)
  {
    var led := leds[slot];
    led.On(hw);
    hw.trace := hw.trace + [On(slot)];
    hw.DelayMs(ms);
    led.Off(hw);
    hw.trace := hw.trace + [Off(slot)];
    BlinkStep(order, k, bs0, r0, t0, w0, ms);
  }

  /** Extending a blinking sweep by its next turn: the events of one more
      turn, and one more LED switched on and off. */
  lemma BlinkStep(order: seq<nat>, k: nat, bs0: seq<Binding>, r0: Registers, t0: seq<Event>, w0: seq<Registers>, ms: nat)
    requires k < |order| && forall m :: 0 <= m < |order| ==> order[m] < |bs0|
    ensures t0 + Chase(order[..k], ms) + [On(order[k])] + [Delay(ms)] + [Off(order[k])] == t0 + Chase(order[..k + 1], ms)
    ensures Swept(OffSweep, r0, Picks(bs0, order[..k + 1]))
         == OffRegs(OnRegs(Swept(OffSweep, r0, Picks(bs0, order[..k])), bs0[order[k]]), bs0[order[k]])
    ensures w0 + ChaseWaits(r0, Picks(bs0, order[..k])) + [OnRegs(Swept(OffSweep, r0, Picks(bs0, order[..k])), bs0[order[k]])]
         == w0 + ChaseWaits(r0, Picks(bs0, order[..k + 1]))
  {
    assert order[..k + 1][..k] == order[..k];
    var p := Picks(bs0, order[..k]);
    var b := bs0[order[k]];
    assert Picks(bs0, order[..k + 1]) == p + [b];
    assert (p + [b])[..|p|] == p;
    OffAfterOn(Swept(OffSweep, r0, p), b);
    assert ChaseWaits(r0, p + [b]) == ChaseWaits(r0, p) + [OnRegs(Swept(OffSweep, r0, p), b)];
  }

  /** A finished blinking sweep, in index order or in reverse. */
  lemma BlinkDone(forward: bool, hw: Hardware, leds: seq<Led?>, order: seq<nat>, bs0: seq<Binding>,
                  r0: Registers, t0: seq<Event>, w0: seq<Registers>, ms: nat)
    requires order == if forward then Ascending(|leds|) else Descending(|leds|)
    requires BlinkProgress(hw, leds, |order|, order, bs0, r0, t0, w0, ms)
    ensures BindingsOf(leds) == bs0
    ensures Lights(leds, false) && ShowAll(leds, hw.regs)
    ensures After(OffSweep, r0, hw.regs, bs0)
    ensures hw.trace == t0 + Chase(order, ms)
    ensures hw.waits == w0 + ChaseWaits(r0, Picks(bs0, order))
  {
    var n := |leds|;
    assert order[..n] == order;
    forall j | 0 <= j < n
      ensures !leds[j].enabled
    {
      var m := if forward then j else n - 1 - j;
      assert order[m] == j;
    }
    SweptMeansAfter(OffSweep, r0, Picks(bs0, order));
    if forward {
      PicksAscending(bs0);
    } else {
      PicksDescending(bs0);
      AfterSameTouched(OffSweep, r0, hw.regs, Picks(bs0, order), bs0);
    }
    forall j | 0 <= j < n
      ensures Shows(Config(hw.regs, leds[j].State()))
    {
      if IsBound(bs0[j]) {
        AfterReaches(OffSweep, r0, hw.regs, bs0, j);
      }
    }
  }

  /** A clear sweep that has done slots 0 to i-1; `seen` lists the bindings
      the LEDs had when their slot was reached. */
  ghost predicate ClearProgress(hw: Hardware, leds: seq<Led?>, i: nat, bs0: seq<Binding>,
                                r0: Registers, seen: seq<Binding>, t0: seq<Event>)
    reads hw, leds
  {
    && i <= |leds| == |bs0|
    && |seen| == i
    && (forall j :: 0 <= j < |leds| ==> leds[j] != null)
    && (forall j :: 0 <= j < i ==> leds[j].State() == ClearedLed)
    && Pending(bs0, BindingsOf(leds), i)
    && hw.regs == Swept(ClearSweep, r0, seen)
    && Touched(ClearSweep, seen) == Touched(ClearSweep, bs0[..i])
    && hw.trace == t0
  }

  /** One slot of `led_array_clear_content`. */
  method ClearSlot(hw: Hardware, leds: seq<Led?>, i: nat, ghost bs0: seq<Binding>,
                   ghost r0: Registers, ghost seen: seq<Binding>, ghost t0: seq<Event>)
    returns (ghost seen': seq<Binding>)
    requires i < |leds| && ClearProgress(hw, leds, i, bs0, r0, seen, t0)
    modifies hw, leds[i]
    ensures ClearProgress(hw, leds, i + 1, bs0, r0, seen', t0)
    ensures hw.waits == old(hw.waits)
  {
    ghost var cur := BindingsOf(leds);
    var led := leds[i];
    ghost var b := led.State().binding;
    led.Clear(hw);
    SeenStep(seen, bs0, i, b);
    seen' := seen + [b];
    assert seen'[..i] == seen;
    ghost var cur' := BindingsOf(leds);
    assert forall j :: 0 <= j < |leds| ==> cur'[j] == cur[j] || (cur'[j] == Unbound && cur[j] == cur[i]);
    PendingStep(bs0, cur, cur', i);
  }

  /** The bits cleared so far stay those of the original bindings of the
      slots done: slot i is either still bound as at the start or unbound,
      with its bits already among those cleared. */
  lemma SeenStep(seen: seq<Binding>, bs0: seq<Binding>, i: nat, b: Binding)
    requires i < |bs0| && Touched(ClearSweep, seen) == Touched(ClearSweep, bs0[..i])
    requires b == bs0[i] || (b == Unbound && Touched(ClearSweep, [bs0[i]]) <= Touched(ClearSweep, bs0[..i]))
    ensures Touched(ClearSweep, seen + [b]) == Touched(ClearSweep, bs0[..i + 1])
  {
    TouchedOne(ClearSweep, seen, b);
    TouchedOne(ClearSweep, bs0[..i], bs0[i]);
    assert bs0[..i + 1] == bs0[..i] + [bs0[i]];
  }

  /** A finished clear sweep: the bank as after clearing every original binding. */
  lemma ClearDone(hw: Hardware, leds: seq<Led?>, bs0: seq<Binding>, r0: Registers, seen: seq<Binding>, t0: seq<Event>)
    requires ClearProgress(hw, leds, |leds|, bs0, r0, seen, t0)
    ensures Cleared(leds)
    ensures After(ClearSweep, r0, hw.regs, bs0)
  {
    SweptMeansAfter(ClearSweep, r0, seen);
    assert bs0[..|leds|] == bs0;
    AfterSameTouched(ClearSweep, r0, hw.regs, seen, bs0);
  }

  /** While a clear sweep has reached slot `i`, every later slot still holds
      its original binding, or it is an LED cleared earlier through another
      slot, whose bits the sweep has already cleared. */
  ghost predicate Pending(bs0: seq<Binding>, cur: seq<Binding>, i: nat)
    requires i <= |bs0| == |cur|
  {
    forall j :: i <= j < |bs0| ==>
      cur[j] == bs0[j] || (cur[j] == Unbound && Touched(ClearSweep, [bs0[j]]) <= Touched(ClearSweep, bs0[..i]))
  }

  /** Clearing slot `i` unbinds every slot holding the same LED and no other. */
  lemma PendingStep(bs0: seq<Binding>, cur: seq<Binding>, cur': seq<Binding>, i: nat)
    requires i < |bs0| == |cur| == |cur'|
    requires Pending(bs0, cur, i)
    requires forall j :: 0 <= j < |cur| ==> cur'[j] == cur[j] || (cur'[j] == Unbound && cur[j] == cur[i])
    ensures Pending(bs0, cur', i + 1)
  {
    TouchedOne(ClearSweep, bs0[..i], bs0[i]);
    assert bs0[..i + 1] == bs0[..i] + [bs0[i]];
  }
}
