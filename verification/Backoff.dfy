/** Exponential backoff with a cap. Delays are unbounded integers. */
module Backoffs {

  /** The fields of a `Backoff` as a value. */
  datatype Delays = Delays(base: int, max: int, current: int) {
    function Next(): Delays {
      this.(current := if current * 2 > max then max else current * 2)
    }

    function Reset(): Delays {
      this.(current := base)
    }
  }

  class Backoff {
    const base: int
    const max: int
    var current: int

    ghost function Value(): Delays
      reads this
    {
      Delays(base, max, current)
    }

    constructor (base: int, maxDelay: int)
      ensures Value() == Delays(base, maxDelay, base)
    {
      this.base, this.max, this.current := base, maxDelay, base;
    }

    method Next() returns (d: int)
      modifies this
      ensures d == old(current) && Value() == old(Value()).Next()
    {
      d := current;
      current := current * 2;
      if current > max {
        current := max;
      }
    }

    method Reset()
      modifies this
      ensures Value() == old(Value()).Reset()
    {
      current := base;
    }
  }

  function Pow2(k: nat): nat {
    if k == 0 then 1 else 2 * Pow2(k - 1)
  }

  function Min(x: int, y: int): int {
    if x <= y then x else y
  }

  /** The k-th delay after a reset. */
  function Nth(d: Delays, k: nat): int {
    Advance(d.Reset(), k).current
  }

  function Advance(d: Delays, k: nat): Delays {
    if k == 0 then d else Advance(d, k - 1).Next()
  }

  function Capped(base: int, max: int, k: nat): int {
    Min(base * Pow2(k), max)
  }

  lemma {:induction false} DoublingCapped(base: int, max: int, k: nat)
    requires 0 < base <= max
    ensures 0 < Capped(base, max, k)
    ensures (if Capped(base, max, k) * 2 > max then max else Capped(base, max, k) * 2) == Capped(base, max, k + 1)
  {
    var p := base * Pow2(k);
    assert base * Pow2(k + 1) == 2 * p;
    PowPositive(k);
    assert p >= 1;
  }

  lemma {:induction false} PowPositive(k: nat)
    ensures Pow2(k) >= 1
  {
    if k > 0 {
      PowPositive(k - 1);
    }
  }

  lemma {:induction false} AdvanceCapped(d: Delays, k: nat)
    requires 0 < d.base <= d.max
    ensures Advance(d.Reset(), k) == d.(current := Capped(d.base, d.max, k))
  {
    if k > 0 {
      AdvanceCapped(d, k - 1);
      DoublingCapped(d.base, d.max, k - 1);
    }
  }

  /** The delays are base, 2*base, 4*base and so on, capped at max, exactly when the
      base does not exceed the cap. */
  lemma {:induction false} DelaysExact(d: Delays)
    requires d.base > 0
    ensures (forall k: nat :: Nth(d, k) == Capped(d.base, d.max, k)) <==> d.base <= d.max
  {
    if d.base <= d.max {
      forall k: nat ensures Nth(d, k) == Capped(d.base, d.max, k) {
        AdvanceCapped(d, k);
      }
    } else {
      assert Nth(d, 0) == d.base && Capped(d.base, d.max, 0) == d.max;
    }
  }
}
