/** The event traces of the LED collection's blinking patterns, and which
    LEDs are lit at each point of them. */
module Choreography {
  import opened RegisterBank

  /** One LED's turn in a chase: on, wait, off. */
  function Turn(k: nat, ms: nat): seq<Event> {
    [On(k), Delay(ms), Off(k)]
  }

  /** The turns of the slots in `order`, one after another. */
  function Chase(order: seq<nat>, ms: nat): (c: seq<Event>)
    ensures |c| == 3 * |order|
    decreases |order|
  {
    if |order| == 0 then [] else Chase(order[..|order| - 1], ms) + Turn(order[|order| - 1], ms)
  }

  /** Slots 0 to n-1, and n-1 down to 0. */
  function Ascending(n: nat): (s: seq<nat>)
    ensures |s| == n && forall i :: 0 <= i < n ==> s[i] == i
  {
    seq(n, i requires 0 <= i < n => i)
  }

  function Descending(n: nat): (s: seq<nat>)
    ensures |s| == n && forall i :: 0 <= i < n ==> s[i] == n - 1 - i
  {
    seq(n, i requires 0 <= i < n => n - 1 - i)
  }

  /** `on` and `off` for slots 0 to n-1, in index order. */
  function OnEvents(n: nat): (s: seq<Event>)
    ensures |s| == n && forall i :: 0 <= i < n ==> s[i] == On(i)
  {
    seq(n, i requires 0 <= i < n => On(i))
  }

  function OffEvents(n: nat): (s: seq<Event>)
    ensures |s| == n && forall i :: 0 <= i < n ==> s[i] == Off(i)
  {
    seq(n, i requires 0 <= i < n => Off(i))
  }

  /** The collective blink of n slots: all on, wait, all off, wait. */
  function Collective(n: nat, ms: nat): (c: seq<Event>)
    ensures |c| == 2 * n + 2 && c[n] == Delay(ms) && c[2 * n + 1] == Delay(ms)
  {
    OnEvents(n) + [Delay(ms)] + OffEvents(n) + [Delay(ms)]
  }

  /** The lit slots after event `e`, starting from `lit`. */
  function Effect(lit: set<nat>, e: Event): set<nat> {
    match e
    case On(k) => lit + {k}
    case Off(k) => lit - {k}
    case Delay(_) => lit
  }

  /** The lit slots after the events `t`, starting from `lit`. */
  function LitAfter(lit: set<nat>, t: seq<Event>): set<nat>
    decreases |t|
  {
    if |t| == 0 then lit else Effect(LitAfter(lit, t[..|t| - 1]), t[|t| - 1])
  }

  /** The slots below n. */
  function Range(n: nat): (s: set<nat>)
    ensures forall i: nat :: i in s <==> i < n
    decreases n
  {
    if n == 0 then {} else Range(n - 1) + {n - 1}
  }

  lemma {:induction false} LitAppend(lit: set<nat>, a: seq<Event>, b: seq<Event>)
    ensures LitAfter(lit, a + b) == LitAfter(LitAfter(lit, a), b)
    decreases |b|
  {
    if |b| == 0 {
      assert a + b == a;
    } else {
      assert (a + b)[..|a + b| - 1] == a + b[..|b| - 1];
      LitAppend(lit, a, b[..|b| - 1]);
    }
  }

  /** A chase has three events per slot: on, the wait, off. */
  lemma {:induction false} ChaseShape(order: seq<nat>, ms: nat)
    ensures |Chase(order, ms)| == 3 * |order|
    ensures forall k :: 0 <= k < |order| ==>
              Chase(order, ms)[3 * k] == On(order[k]) &&
              Chase(order, ms)[3 * k + 1] == Delay(ms) &&
              Chase(order, ms)[3 * k + 2] == Off(order[k])
    decreases |order|
  {
    if |order| > 0 {
      var front := order[..|order| - 1];
      ChaseShape(front, ms);
      forall k | 0 <= k < |order|
        ensures Chase(order, ms)[3 * k] == On(order[k])
        ensures Chase(order, ms)[3 * k + 1] == Delay(ms)
        ensures Chase(order, ms)[3 * k + 2] == Off(order[k])
      {
        if k < |front| {
          assert order[k] == front[k];
        }
      }
    }
  }

  /** Within one turn the slot is lit after `on` and through the wait. */
  lemma TurnLit(k: nat, ms: nat, j: nat)
    requires j <= 3
    ensures LitAfter({}, Turn(k, ms)[..j]) == if j == 0 || j == 3 then {} else {k}
  {
    var t := Turn(k, ms);
    assert t[..1][..0] == [];
    assert t[..2][..1] == t[..1];
    assert t[..3][..2] == t[..2];
    if j == 1 {
      assert LitAfter({}, t[..1]) == Effect({}, On(k));
    } else if j == 2 {
      assert LitAfter({}, t[..2]) == Effect(LitAfter({}, t[..1]), Delay(ms));
    } else if j == 3 {
      assert LitAfter({}, t[..1]) == Effect({}, On(k));
      assert LitAfter({}, t[..2]) == Effect(LitAfter({}, t[..1]), Delay(ms));
      assert LitAfter({}, t[..3]) == Effect(LitAfter({}, t[..2]), Off(k));
    }
  }

  /** During a chase at most one slot is lit: none between two turns, and
      the slot whose turn it is in the middle of one. In particular every
      slot is dark once the chase is over. */
  lemma {:induction false} ChaseLightsOneAtATime(order: seq<nat>, ms: nat, m: nat)
    requires m <= 3 * |order|
    ensures LitAfter({}, Chase(order, ms)[..m]) == if m % 3 == 0 then {} else {order[m / 3]}
    decreases |order|
  {
    var c := Chase(order, ms);
    if |order| > 0 {
      var front := order[..|order| - 1];
      var head := Chase(front, ms);
      if m <= 3 * |front| {
        ChaseLightsOneAtATime(front, ms, m);
        assert c[..m] == head[..m];
        if m % 3 != 0 {
          assert order[m / 3] == front[m / 3];
        }
      } else {
        var k := order[|order| - 1];
        var j := m - 3 * |front|;
        ChaseLightsOneAtATime(front, ms, 3 * |front|);
        assert head[..3 * |front|] == head;
        assert c[..m] == head + Turn(k, ms)[..j];
        LitAppend({}, head, Turn(k, ms)[..j]);
        TurnLit(k, ms, j);
        DivideTurn(|front|, j);
      }
    }
  }

  /** Position j of turn number q. */
  lemma DivideTurn(q: nat, j: nat)
    requires 0 < j <= 3
    ensures (3 * q + j) % 3 == j % 3
    ensures j < 3 ==> (3 * q + j) / 3 == q
  {
  }

  lemma {:induction false} OnEventsLight(lit: set<nat>, n: nat)
    ensures LitAfter(lit, OnEvents(n)) == lit + Range(n)
    decreases n
  {
    if n > 0 {
      assert OnEvents(n)[..n - 1] == OnEvents(n - 1);
      OnEventsLight(lit, n - 1);
    }
  }

  lemma {:induction false} OffEventsDarken(lit: set<nat>, n: nat)
    ensures LitAfter(lit, OffEvents(n)) == lit - Range(n)
    decreases n
  {
    if n > 0 {
      assert OffEvents(n)[..n - 1] == OffEvents(n - 1);
      OffEventsDarken(lit, n - 1);
    }
  }

  /** The collective blink has exactly two waits, one after all the `on`
      events and one at the very end; no `off` comes before an `on`; every
      slot is lit during the first wait and dark at the end. */
  lemma CollectiveShape(n: nat, ms: nat)
    ensures |Collective(n, ms)| == 2 * n + 2
    ensures forall j :: 0 <= j < 2 * n + 2 ==> (Collective(n, ms)[j].Delay? <==> j == n || j == 2 * n + 1)
    ensures forall j, k :: 0 <= j < 2 * n + 2 && 0 <= k < 2 * n + 2 && Collective(n, ms)[j].Off? && Collective(n, ms)[k].On? ==> k < j
    ensures LitAfter({}, Collective(n, ms)[..n + 1]) == Range(n)
    ensures LitAfter({}, Collective(n, ms)) == {}
  {
    var c := Collective(n, ms);
    forall j | 0 <= j < 2 * n + 2
      ensures c[j].Delay? <==> j == n || j == 2 * n + 1
      ensures c[j].Off? ==> n < j
      ensures c[j].On? ==> j < n
    {
      if j < n {
        assert c[j] == OnEvents(n)[j];
      } else if n < j < 2 * n + 1 {
        assert c[j] == OffEvents(n)[j - n - 1];
      }
    }
    assert c[..n + 1] == OnEvents(n) + [Delay(ms)];
    LitAppend({}, OnEvents(n), [Delay(ms)]);
    OnEventsLight({}, n);
    assert c == (OnEvents(n) + [Delay(ms)]) + (OffEvents(n) + [Delay(ms)]);
    LitAppend({}, OnEvents(n) + [Delay(ms)], OffEvents(n) + [Delay(ms)]);
    LitAppend(Range(n), OffEvents(n), [Delay(ms)]);
    OffEventsDarken(Range(n), n);
  }
}
