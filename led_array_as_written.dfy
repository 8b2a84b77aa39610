/** Three macros of `led_array.h` as their code is written, next to the
    behaviour their documentation promises (which `LedArrays` models). Each
    is a value-level function of the collection: the block's handles, whether
    a block is held at all, and the size variable. A run that reaches
    undefined behaviour, or a use that cannot be built, yields `Undefined`
    with the defect it hits. */
module LedArrayAsWritten {
  import opened Leds
  import opened LedArrays

  /** What goes wrong. */
  datatype Defect =
    | WriteThroughNull      // a store through the null pointer a failed `realloc` returned
    | NullDereference       // `*i` with `i` starting at the null pointer
    | UndeclaredFunction    // a call of `led_array`, which nothing declares or defines
    | ForeignRealloc        // `realloc` of the address of the caller's pointer variable

  /** The pointer `*self` (null or a block of `slots`) and the size `*size`. */
  datatype Collection = Collection(held: bool, slots: seq<Led?>, size: nat)

  datatype Outcome =
    | Defined(after: Collection, ret: int)
    | Undefined(defect: Defect)

  /** The block `realloc` returns on success: the old handles that fit,
      then empty slots. A null pointer is reallocated as a fresh block. */
  function Realloc(c: Collection, n: nat): (r: Collection)
    ensures r.held && |r.slots| == n && r.size == c.size
  {
    Collection(true, Resized(if c.held then c.slots else [], n), c.size)
  }

  /** `led_array_push` as written (led_array.h:85-92): the failure of
      `realloc` only sets the return value; the store `copy[(*size)++]`
      and the assignment `*self = copy` still happen. */
  function PushAsWritten(c: Collection, newLed: Led?, reallocOk: bool): (o: Outcome)
    ensures o.Undefined? <==> !reallocOk
  {
    if !reallocOk then Undefined(WriteThroughNull)
    else
      var copy := Realloc(c, c.size + 1);
      Defined(Collection(true, copy.slots[c.size := newLed], c.size + 1), 0)
  }

  /** When `realloc` fails, `push` as written always stores through null:
      there is no input for which it returns 1 with the collection intact,
      as its documentation promises and `LedArray.Push` does. */
  lemma PushAsWrittenFails(c: Collection, newLed: Led?)
    ensures PushAsWritten(c, newLed, false) == Undefined(WriteThroughNull)
    ensures PushAsWritten(c, newLed, false) != Defined(c, 1)
  {
  }

  /** When `realloc` succeeds, `push` as written does what it promises: the
      old handles, then `newLed`, one slot more, and 0 returned. */
  lemma PushAsWrittenOnSuccess(c: Collection, newLed: Led?)
    requires c.held ==> |c.slots| == c.size
    ensures PushAsWritten(c, newLed, true).Defined?
    ensures PushAsWritten(c, newLed, true).ret == 0
    ensures PushAsWritten(c, newLed, true).after
         == Collection(true, Resized(if c.held then c.slots else [], c.size) + [newLed], c.size + 1)
  {
    var slots := if c.held then c.slots else [];
    var grown := Resized(slots, c.size + 1)[c.size := newLed];
    assert grown == Resized(slots, c.size) + [newLed];
  }

  /** `led_array_pop` as written (led_array.h:102-116). The branch for a
      size of at most one calls `led_array`, which is declared nowhere, so
      no program using the macro links. The other branch passes `self`, the
      address of the caller's pointer variable, to `realloc` rather than
      `*self`. Its `self = copy` assigns to the macro's argument: for the
      argument `&leds` of `main.c` that is not an lvalue and does not
      compile, and for a pointer variable it would leave `*self` as it was. */
  function PopAsWritten(c: Collection, reallocOk: bool): (o: Outcome)
    ensures o.Undefined?
    ensures c.size <= 1 ==> o.defect == UndeclaredFunction
    ensures c.size > 1 ==> o.defect == ForeignRealloc
  {
    if c.size <= 1 then Undefined(UndeclaredFunction) else Undefined(ForeignRealloc)
  }

  /** `led_array_clear_content` as written (led_array.h:45-50): the cursor
      starts at the null pointer instead of at the block, so the first
      `led_clear(*i)` dereferences null; only a size of 0 runs no iteration. */
  function ClearContentAsWritten(c: Collection): (o: Outcome)
    ensures o.Defined? <==> c.size == 0
    ensures o.Defined? ==> o == Defined(c, 0)
  {
    if c.size == 0 then Defined(c, 0) else Undefined(NullDereference)
  }

  /** Concrete inputs that show each defect: a failed `realloc` on the
      empty collection `main` starts from, a pop from five LEDs, and the
      clearing of one LED. */
  lemma Counterexamples(led: Led?)
    ensures PushAsWritten(Collection(true, [], 0), led, false) == Undefined(WriteThroughNull)
    ensures PopAsWritten(Collection(true, [led, led, led, led, led], 5), true) == Undefined(ForeignRealloc)
    ensures PopAsWritten(Collection(true, [led], 1), true) == Undefined(UndeclaredFunction)
    ensures ClearContentAsWritten(Collection(true, [led], 1)) == Undefined(NullDereference)
  {
  }
}
