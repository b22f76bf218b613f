/** int64 nanosecond arithmetic and doubling delays. */
module Durations {

  const TWO_62: int := 0x4000_0000_0000_0000
  const TWO_63: int := 0x8000_0000_0000_0000
  const TWO_64: int := 0x1_0000_0000_0000_0000

  /** Two's-complement wrap-around of a sum or product. */
  function Wrap(x: int): (r: int)
    ensures -TWO_63 <= r < TWO_63
    ensures -TWO_63 <= x < TWO_63 ==> r == x
    ensures TWO_63 <= x < TWO_64 ==> r == x - TWO_64
  {
    (x + TWO_63) % TWO_64 - TWO_63
  }

  function Min(a: int, b: int): int { if a < b then a else b }

  /** d doubled k times. */
  function Doubled(d: int, k: nat): int
    decreases k
  {
    if k == 0 then d else Doubled(2 * d, k - 1)
  }

  lemma {:induction false} DoubledGrows(d: int, k: nat)
    requires d > 0
    ensures Doubled(d, k) >= d
    decreases k
  {
    if k > 0 { DoubledGrows(2 * d, k - 1); }
  }

  lemma {:induction false} DoubledLast(d: int, k: nat)
    ensures Doubled(d, k + 1) == 2 * Doubled(d, k)
    decreases k
  {
    if k > 0 { DoubledLast(2 * d, k - 1); }
  }
}
