/** Small numeric helpers shared by both game variants. */
module Numeric {
  function Min(a: int, b: int): int { if a <= b then a else b }
  function Max(a: int, b: int): int { if a >= b then a else b }

  /** Kotlin's `coerceIn(lo, hi)`, which throws unless lo <= hi. */
  function Clamp(v: real, lo: real, hi: real): (r: real)
    requires lo <= hi
    ensures lo <= r <= hi
    ensures lo <= v <= hi ==> r == v
    ensures v < lo ==> r == lo
    ensures v > hi ==> r == hi
  {
    if v < lo then lo else if v > hi then hi else v
  }

  /** A fraction of a non-negative length is a point of that length. */
  lemma ScaledFraction(r: real, len: real)
    ensures 0.0 <= r <= 1.0 && 0.0 <= len ==> 0.0 <= r * len <= len
  {
    if 0.0 <= r <= 1.0 && 0.0 <= len {
      assert (1.0 - r) * len >= 0.0;
    }
  }

  /** Kotlin's `Float.toInt()` on a finite value: rounds toward zero. */
  function Truncate(r: real): (n: int)
    ensures r >= 0.0 ==> 0 <= n && n as real <= r < n as real + 1.0
    ensures r < 0.0 ==> n <= 0 && n as real - 1.0 < r <= n as real
  {
    if r >= 0.0 then r.Floor else -((-r).Floor)
  }
}
