/**
 * The C# `int` (System.Int32) as the two interpreters use it: the range of the type,
 * unchecked wrap-around of `+`, `-` and `*`, truncating division by two, and the
 * integer square root that `(int)Math.Sqrt(d)` computes for a non-negative `int` `d`.
 */
module Int32 {

  const MIN: int := -0x8000_0000
  const MAX: int := 0x7FFF_FFFF
  const MODULUS: int := 0x1_0000_0000

  predicate InRange(n: int) {
    MIN <= n <= MAX
  }

  /** A C# `int`. */
  type int32 = n: int | MIN <= n <= MAX

  /** The value of an unchecked C# `int` operation whose exact result is `n`. */
  function Wrap(n: int): (r: int)
    ensures InRange(r)
    ensures (n - r) % MODULUS == 0
    ensures InRange(n) ==> r == n
  {
    (n - MIN) % MODULUS + MIN
  }

  /** C#'s `a / 2` on `int`, which truncates toward zero (Dafny's `/` does not). */
  function Half(a: int): (q: int)
    ensures 0 <= a ==> 0 <= a - 2 * q <= 1
    ensures a < 0 ==> -1 <= a - 2 * q <= 0
  {
    if a >= 0 then a / 2 else -((-a) / 2)
  }

  /** The largest `r` with `r * r <= n`. */
  function ISqrt(n: nat): (r: nat)
    ensures r * r <= n < (r + 1) * (r + 1)
  {
    if n == 0 then 0
    else
      var h := ISqrt(n / 4);
      var r := 2 * h;
      DoubleRoot(n, h);
      if (r + 1) * (r + 1) <= n then r + 1 else r
  }

  /** Doubling the root of `n / 4` gives `r` with `r * r <= n < (r + 2) * (r + 2)`. */
  lemma DoubleRoot(n: nat, h: nat)
    requires h * h <= n / 4 < (h + 1) * (h + 1)
    ensures 2 * h * (2 * h) <= n < (2 * h + 2) * (2 * h + 2)
  {
    assert 2 * h * (2 * h) == 4 * (h * h);
    assert (2 * h + 2) * (2 * h + 2) == 4 * ((h + 1) * (h + 1));
    assert 4 * (n / 4) <= n < 4 * (n / 4) + 4;
  }
}
