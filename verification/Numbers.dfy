/** Powers of two, by which both backoffs grow, and the rate that both analytics queries report. */
module Numbers {

  function Pow2(n: nat): (p: nat)
    ensures p >= 1
  {
    if n == 0 then 1 else 2 * Pow2(n - 1)
  }

  lemma {:induction false} Pow2Monotone(m: nat, n: nat)
    requires m <= n
    ensures Pow2(m) <= Pow2(n)
  {
    if m < n {
      Pow2Monotone(m, n - 1);
    }
  }

  /** The part of a whole, zero when there is nothing to take a part of. */
  function Rate(part: nat, whole: nat): real {
    if whole > 0 then part as real / whole as real else 0.0
  }

  lemma RateMeans(part: nat, whole: nat)
    ensures whole == 0 ==> Rate(part, whole) == 0.0
    ensures whole > 0 ==> Rate(part, whole) * whole as real == part as real
  {
  }
}
