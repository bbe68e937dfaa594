/** The safe average `av` of xenon/core.py. */
module Averages {

  /** `av(n, m)`: `n / m`, or 0 when `m` is 0 (a division by zero is never raised). */
  function Av(n: real, m: int): (r: real)
    ensures m == 0 ==> r == 0.0
    ensures m != 0 ==> r * (m as real) == n
  {
    if m != 0 then n / (m as real) else 0.0
  }

  /** The average of `m` values that are each at most `hi` is at most `hi`. */
  lemma AvAtMost(n: real, m: nat, hi: real)
    requires m > 0 && n <= hi * (m as real)
    ensures Av(n, m) <= hi
  {
  }

  /** The average of `m` values that are each at least `lo` is at least `lo`. */
  lemma AvAtLeast(n: real, m: nat, lo: real)
    requires m > 0 && lo * (m as real) <= n
    ensures lo <= Av(n, m)
  {
  }
}
