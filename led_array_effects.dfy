/** What a sweep over the LEDs of a collection does to the register bank:
    `on`, `off` or `clear` applied to one binding after another. The effect
    is stated bit by bit, so it does not depend on the order of the sweep or
    on the same LED appearing in the collection more than once. */
module SweepEffects {
  import opened Misc
  import opened Routing
  import opened RegisterBank
  import Leds

  /** The DDR side or the PORT side of a binding. */
  datatype Side = DdrSide | PortSide

  function SideBit(side: Side, b: Binding): Location
    requires IsBound(b)
  {
    if side == DdrSide then DdrBit(b) else PortBit(b)
  }

  /** The bit of one side of a binding: none for an unbound one. */
  function Own(side: Side, b: Binding): set<Location> {
    if IsBound(b) then {SideBit(side, b)} else {}
  }

  /** The bits of one side of every binding in `bs`. */
  function Bits(side: Side, bs: seq<Binding>): set<Location>
    decreases |bs|
  {
    if |bs| == 0 then {} else Bits(side, bs[..|bs| - 1]) + Own(side, bs[|bs| - 1])
  }

  lemma {:induction false} BitsAppend(side: Side, a: seq<Binding>, c: seq<Binding>)
    ensures Bits(side, a + c) == Bits(side, a) + Bits(side, c)
    decreases |c|
  {
    if |c| == 0 {
      assert a + c == a;
    } else {
      var c' := c[..|c| - 1];
      assert (a + c)[..|a + c| - 1] == a + c';
      BitsAppend(side, a, c');
    }
  }

  /** A location is among the bits of `bs` exactly when it is the bit of
      some bound binding of `bs`. */
  lemma {:induction false} BitsMember(side: Side, bs: seq<Binding>, loc: Location)
    ensures loc in Bits(side, bs) <==> exists k :: 0 <= k < |bs| && IsBound(bs[k]) && loc == SideBit(side, bs[k])
    decreases |bs|
  {
    if |bs| > 0 {
      var front := bs[..|bs| - 1];
      BitsMember(side, front, loc);
      if loc in Bits(side, front) {
        var k :| 0 <= k < |front| && IsBound(front[k]) && loc == SideBit(side, front[k]);
        assert bs[k] == front[k];
      }
      if exists k :: 0 <= k < |bs| && IsBound(bs[k]) && loc == SideBit(side, bs[k]) {
        var k :| 0 <= k < |bs| && IsBound(bs[k]) && loc == SideBit(side, bs[k]);
        if k < |front| {
          assert front[k] == bs[k];
        }
      }
    }
  }

  /** The three sweeps of an LED collection. */
  datatype Sweep = OnSweep | OffSweep | ClearSweep

  /** The bits a sweep over `bs` writes: the PORT bits, and for `clear` the
      DDR bits as well. */
  function Touched(op: Sweep, bs: seq<Binding>): set<Location> {
    if op == ClearSweep then Bits(DdrSide, bs) + Bits(PortSide, bs) else Bits(PortSide, bs)
  }

  /** The value every touched bit is left with: one for `on`, zero otherwise. */
  predicate Level(op: Sweep) {
    op == OnSweep
  }

  /** The single-LED register operation a sweep applies to each binding. */
  function Apply(op: Sweep, r: Registers, b: Binding): Registers {
    match op
    case OnSweep => Leds.OnRegs(r, b)
    case OffSweep => Leds.OffRegs(r, b)
    case ClearSweep => Leds.ClearRegs(r, b)
  }

  /** `r'` is the bank after sweeping `op` over `bs` starting from `r`: every
      touched bit holds the sweep's level, every other bit and the interrupt
      flag are as in `r`. */
  ghost predicate After(op: Sweep, r: Registers, r': Registers, bs: seq<Binding>) {
    && r'.globalInterrupts == r.globalInterrupts
    && forall loc :: BitAt(r', loc) == if loc in Touched(op, bs) then Level(op) else BitAt(r, loc)
  }

  /** The bank after applying `op` to each binding of `bs`, first to last. */
  function Swept(op: Sweep, r: Registers, bs: seq<Binding>): Registers
    decreases |bs|
  {
    if |bs| == 0 then r else Apply(op, Swept(op, r, bs[..|bs| - 1]), bs[|bs| - 1])
  }

  /** The bits one binding contributes to a sweep. */
  lemma TouchedOne(op: Sweep, bs: seq<Binding>, b: Binding)
    ensures Touched(op, bs + [b]) == Touched(op, bs) + Touched(op, [b])
    ensures Touched(op, [b] + bs) == Touched(op, bs) + Touched(op, [b])
    ensures Touched(op, [b]) == if op == ClearSweep then Own(DdrSide, b) + Own(PortSide, b) else Own(PortSide, b)
  {
    BitsAppend(DdrSide, bs, [b]);
    BitsAppend(PortSide, bs, [b]);
    BitsAppend(DdrSide, [b], bs);
    BitsAppend(PortSide, [b], bs);
    assert [b][..0] == [];
  }

  /** One more LED swept, at the back or at the front of the order. */
  lemma AfterStep(op: Sweep, r: Registers, r1: Registers, bs: seq<Binding>, b: Binding)
    requires After(op, r, r1, bs)
    ensures After(op, r, Apply(op, r1, b), bs + [b])
    ensures After(op, r, Apply(op, r1, b), [b] + bs)
  {
    TouchedOne(op, bs, b);
    var r2 := Apply(op, r1, b);
    forall loc
      ensures BitAt(r2, loc) == if loc in Touched(op, bs + [b]) then Level(op) else BitAt(r, loc)
    {
      if IsBound(b) && loc !in Touched(op, [b]) {
        assert BitAt(r2, loc) == BitAt(r1, loc);
      }
    }
  }

  /** Applying the single-LED operation to each binding in turn has exactly
      the bit-level effect `After` describes. */
  lemma {:induction false} SweptMeansAfter(op: Sweep, r: Registers, bs: seq<Binding>)
    ensures After(op, r, Swept(op, r, bs), bs)
    decreases |bs|
  {
    if |bs| > 0 {
      var front := bs[..|bs| - 1];
      SweptMeansAfter(op, r, front);
      assert bs == front + [bs[|bs| - 1]];
      AfterStep(op, r, Swept(op, r, front), front, bs[|bs| - 1]);
    }
  }

  /** `After` sees the bindings only through the bits they touch. */
  lemma AfterSameTouched(op: Sweep, r: Registers, r': Registers, bs: seq<Binding>, cs: seq<Binding>)
    requires After(op, r, r', bs) && Touched(op, bs) == Touched(op, cs)
    ensures After(op, r, r', cs)
  {
  }

  /** The bank after a sweep is determined by the bank before and the bindings. */
  lemma AfterDetermined(op: Sweep, r: Registers, r1: Registers, r2: Registers, bs: seq<Binding>)
    requires After(op, r, r1, bs) && After(op, r, r2, bs)
    ensures r1 == r2
  {
    Extensionality(r1, r2);
  }

  /** An `on` sweep followed by an `off` sweep over the same bindings has the
      effect of the `off` sweep alone. */
  lemma AfterOnThenOff(r: Registers, r1: Registers, r2: Registers, bs: seq<Binding>)
    requires After(OnSweep, r, r1, bs) && After(OffSweep, r1, r2, bs)
    ensures After(OffSweep, r, r2, bs)
  {
  }

  /** After a sweep, every bound LED of the collection has its PORT bit at the
      sweep's level; after a `clear` sweep its DDR bit is zero too. */
  lemma AfterReaches(op: Sweep, r: Registers, r': Registers, bs: seq<Binding>, k: nat)
    requires After(op, r, r', bs)
    requires k < |bs| && IsBound(bs[k])
    ensures BitAt(r', PortBit(bs[k])) == Level(op)
    ensures op == ClearSweep ==> !BitAt(r', DdrBit(bs[k]))
  {
    BitsMember(PortSide, bs, PortBit(bs[k]));
    BitsMember(DdrSide, bs, DdrBit(bs[k]));
  }

  /** The bank during each wait of a chase over `bs`, starting from `r`:
      at the k-th wait the first k LEDs have each been switched on and off
      again, and LED k is on. */
  function ChaseWaits(r: Registers, bs: seq<Binding>): (ws: seq<Registers>)
    ensures |ws| == |bs|
    decreases |bs|
  {
    if |bs| == 0 then []
    else
      var front := bs[..|bs| - 1];
      ChaseWaits(r, front) + [Leds.OnRegs(Swept(OffSweep, r, front), bs[|bs| - 1])]
  }

  /** The k-th wait of a chase, read off directly. */
  lemma {:induction false} ChaseWaitsAt(r: Registers, bs: seq<Binding>, k: nat)
    requires k < |bs|
    ensures ChaseWaits(r, bs)[k] == Leds.OnRegs(Swept(OffSweep, r, bs[..k]), bs[k])
    decreases |bs|
  {
    var front := bs[..|bs| - 1];
    if k < |front| {
      ChaseWaitsAt(r, front, k);
      assert front[..k] == bs[..k];
    } else {
      assert front == bs[..k];
    }
  }

  /** What the LEDs show during the k-th wait of a chase: LED k is lit; every
      LED visited before it is dark, unless it shares LED k's PORT bit; every
      bit not yet visited, and the interrupt flag, is as before the chase. */
  lemma ChaseWaitShows(r: Registers, bs: seq<Binding>, k: nat)
    requires k < |bs|
    ensures IsBound(bs[k]) ==> BitAt(ChaseWaits(r, bs)[k], PortBit(bs[k]))
    ensures forall j :: 0 <= j < k && IsBound(bs[j]) && (IsBound(bs[k]) ==> PortBit(bs[j]) != PortBit(bs[k])) ==>
              !BitAt(ChaseWaits(r, bs)[k], PortBit(bs[j]))
    ensures forall loc :: loc !in Touched(OffSweep, bs[..k + 1]) ==> BitAt(ChaseWaits(r, bs)[k], loc) == BitAt(r, loc)
    ensures ChaseWaits(r, bs)[k].globalInterrupts == r.globalInterrupts
  {
    ChaseWaitsAt(r, bs, k);
    var before := bs[..k];
    var w := ChaseWaits(r, bs)[k];
    SweptMeansAfter(OffSweep, r, before);
    TouchedOne(OffSweep, before, bs[k]);
    assert bs[..k + 1] == before + [bs[k]];
    forall j | 0 <= j < k && IsBound(bs[j]) && (IsBound(bs[k]) ==> PortBit(bs[j]) != PortBit(bs[k]))
      ensures !BitAt(w, PortBit(bs[j]))
    {
      assert before[j] == bs[j];
      BitsMember(PortSide, before, PortBit(bs[j]));
    }
  }

  /** The bank during the two waits of the collective blink over `bs`: after
      the `on` sweep, and after the `off` sweep that follows it. */
  function CollectiveWaits(r: Registers, bs: seq<Binding>): (ws: seq<Registers>)
    ensures |ws| == 2
  {
    [Swept(OnSweep, r, bs), Swept(OffSweep, Swept(OnSweep, r, bs), bs)]
  }

  /** During the first wait of the collective blink every LED is lit, during
      the second every LED is dark; nothing else differs from the bank before. */
  lemma CollectiveWaitsShow(r: Registers, bs: seq<Binding>)
    ensures After(OnSweep, r, CollectiveWaits(r, bs)[0], bs)
    ensures After(OffSweep, r, CollectiveWaits(r, bs)[1], bs)
  {
    SweptMeansAfter(OnSweep, r, bs);
    SweptMeansAfter(OffSweep, Swept(OnSweep, r, bs), bs);
    AfterOnThenOff(r, Swept(OnSweep, r, bs), CollectiveWaits(r, bs)[1], bs);
  }
}
