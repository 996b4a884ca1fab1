/** The panel's byte counters are Go int64 values; sums that may overflow are
    capped at the largest one. */
module Int64 {
  const MAX: int := 0x7FFF_FFFF_FFFF_FFFF

  /** A byte total as the panel can hold it. */
  function Cap(n: int): (r: int)
    ensures r <= MAX && r <= n
    ensures n >= 0 ==> r >= 0
  {
    if n > MAX then MAX else n
  }

  // egress.go addSaturating
  function AddSaturating(a: int, b: int): int {
    if b > 0 && a > MAX - b then MAX else a + b
  }

  // vnstat.go saturate
  function Saturate(a: int, b: int): int {
    if a > MAX - b then MAX else a + b
  }

  function Max(a: int, b: int): int { if a >= b then a else b }

  function Min(a: int, b: int): int { if a <= b then a else b }

  /** Adding capped totals step by step loses nothing against capping the whole sum. */
  lemma CappedSums(a: nat, b: nat)
    ensures AddSaturating(Cap(a), Cap(b)) == Cap(a + b)
    ensures Saturate(Cap(a), Cap(b)) == Cap(a + b)
  {
  }
}
