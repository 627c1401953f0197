/** 32-bit tick counters (`SEQ_ISPASSED` in `src/led.c`) against unbounded time. */
module Ticks {

  const TWO_31: int := 0x8000_0000
  const TWO_32: int := 0x1_0000_0000

  /** A `uint32_t` number of milliseconds. */
  type Tick = x: int | 0 <= x < TWO_32

  function TickOf(t: int): Tick {
    t % TWO_32
  }

  /** `SEQ_ISPASSED`: the difference, wrapped to 32 bits and read as signed, is not negative. */
  predicate IsPassed(now: Tick, target: Tick) {
    (now - target) % TWO_32 < TWO_31
  }

  lemma ModTwice(a: int, b: int)
    ensures (TickOf(a) - TickOf(b)) % TWO_32 == (a - b) % TWO_32
  {
    var qa, qb := a / TWO_32, b / TWO_32;
    assert a == TWO_32 * qa + TickOf(a) && b == TWO_32 * qb + TickOf(b);
    ModMultiple(TickOf(a) - TickOf(b), qa - qb);
  }

  lemma ModMultiple(x: int, k: int)
    ensures (x + TWO_32 * k) % TWO_32 == x % TWO_32
  {
    var q, r := x / TWO_32, x % TWO_32;
    assert x + TWO_32 * k == TWO_32 * (q + k) + r;
  }

  lemma PassedIs(now: int, target: int)
    ensures IsPassed(TickOf(now), TickOf(target)) <==> (now - target) % TWO_32 < TWO_31
  {
    ModTwice(now, target);
  }

  /** How many times the difference has gone through half the range of the counter. */
  function Halves(d: int): nat {
    if d >= 0 then d / TWO_31 else (-d - 1) / TWO_31
  }

  /** The 32-bit comparison agrees with unbounded time exactly when the two times are an even number
      of half ranges apart; in particular when they differ by less than half the range. */
  lemma PassedAgreesIff(now: int, target: int)
    ensures (IsPassed(TickOf(now), TickOf(target)) <==> now >= target) <==> Halves(now - target) % 2 == 0
    ensures -TWO_31 <= now - target < TWO_31 ==> (IsPassed(TickOf(now), TickOf(target)) <==> now >= target)
  {
    PassedIs(now, target);
    var d := now - target;
    if d >= 0 {
      HalfOf(d);
    } else {
      HalfOf(-d - 1);
      var q, r := (-d - 1) / TWO_32, (-d - 1) % TWO_32;
      assert d == TWO_32 * (-q - 1) + (TWO_32 - 1 - r);
      ModMultiple(TWO_32 - 1 - r, -q - 1);
    }
  }

  lemma HalfOf(d: nat)
    ensures d % TWO_32 < TWO_31 <==> (d / TWO_31) % 2 == 0
  {
    var q, r := d / TWO_31, d % TWO_31;
    if q % 2 == 0 {
      assert d == TWO_32 * (q / 2) + r;
      ModMultiple(r, q / 2);
    } else {
      assert d == TWO_32 * (q / 2) + (TWO_31 + r);
      ModMultiple(TWO_31 + r, q / 2);
    }
  }
}
