/** The ghost ground truth of all accounting: how many bytes passed in each second. */
module Traffic {
  // Bytes passed in each second since the epoch, in one direction.
  type Rate = int -> nat

  /** Bytes passed in the seconds [a, z). */
  ghost function Passed(f: Rate, a: int, z: int): (bytes: nat)
    decreases z - a
  {
    if a >= z then 0 else Passed(f, a, z - 1) + f(z - 1)
  }

  lemma {:induction false} PassedSplit(f: Rate, a: int, m: int, z: int)
    requires a <= m <= z
    ensures Passed(f, a, z) == Passed(f, a, m) + Passed(f, m, z)
    decreases z - m
  {
    if m < z { PassedSplit(f, a, m, z - 1); }
  }

  /** Two rates that agree on [a, z) pass the same bytes there. */
  lemma {:induction false} PassedAgree(f: Rate, g: Rate, a: int, z: int)
    requires forall t :: a <= t < z ==> f(t) == g(t)
    ensures Passed(f, a, z) == Passed(g, a, z)
    decreases z - a
  {
    if a < z { PassedAgree(f, g, a, z - 1); }
  }

  lemma {:induction false} PassedZero(f: Rate, a: int, z: int)
    requires forall t :: a <= t < z ==> f(t) == 0
    ensures Passed(f, a, z) == 0
    decreases z - a
  {
    if a < z { PassedZero(f, a, z - 1); }
  }
}
