/** Day arithmetic behind the pricing rule: `Math.ceil` of a real quotient, and the
    integer ceiling division it agrees with. */
module Days {

  /** Milliseconds in a day, `1000 * 60 * 60 * 24`. */
  const MS_PER_DAY: int := 1000 * 60 * 60 * 24

  /** `Math.ceil`: the least integer that is not below `x`. */
  function Ceil(x: real): (c: int)
    ensures x <= c as real < x + 1.0
  {
    -((-x).Floor)
  }

  /** Ceiling of `n / d` in integer arithmetic (Dafny's `/` floors when `d > 0`). */
  function CeilDiv(n: int, d: int): (q: int)
    requires d > 0
    ensures (q - 1) * d < n <= q * d
  {
    if n % d == 0 then n / d else n / d + 1
  }

  /** A strict order between two multiples of the same positive number is an order
      between the factors. */
  lemma MulStrictConverse(a: int, b: int, d: int)
    requires d > 0 && a * d < b * d
    ensures a < b
  {
    assert b * d - a * d == (b - a) * d;
  }

  /** The real counterpart of `MulStrictConverse`. */
  lemma RealMulStrictConverse(a: real, b: real, d: real)
    requires d > 0.0 && a * d < b * d
    ensures a < b
  {
    assert b * d - a * d == (b - a) * d;
  }

  /** The bracket of `CeilDiv` determines its result. */
  lemma {:induction false} CeilDivUnique(n: int, d: int, q: int)
    requires d > 0
    requires (q - 1) * d < n <= q * d
    ensures CeilDiv(n, d) == q
  {
    var c := CeilDiv(n, d);
    // (c - 1) * d < n <= q * d and (q - 1) * d < n <= c * d
    MulStrictConverse(c - 1, q, d);
    MulStrictConverse(q - 1, c, d);
  }

  /** The real-valued `Math.ceil(n / d)` the source evaluates is integer ceiling division. */
  lemma CeilOfQuotient(n: int, d: int)
    requires d > 0
    ensures Ceil(n as real / d as real) == CeilDiv(n, d)
  {
    var q := CeilDiv(n, d);
    var x := n as real / d as real;
    assert x * d as real == n as real;
    assert ((q - 1) * d) as real == (q - 1) as real * d as real;
    assert (q * d) as real == q as real * d as real;
    RealMulStrictConverse((q - 1) as real, x, d as real);
    assert x <= q as real by {
      assert x * d as real <= q as real * d as real;
      assert (q as real - x) * d as real >= 0.0;
    }
    var c := Ceil(x);
    assert c == q;
  }

  /** Shifting the dividend by `k` whole divisors shifts the ceiling by `k`. */
  lemma {:induction false} CeilDivShift(n: int, d: int, k: int)
    requires d > 0
    ensures CeilDiv(n + k * d, d) == CeilDiv(n, d) + k
  {
    var q := CeilDiv(n, d);
    assert (q + k - 1) * d == (q - 1) * d + k * d;
    assert (q + k) * d == q * d + k * d;
    CeilDivUnique(n + k * d, d, q + k);
  }

  /** A positive dividend has a ceiling of at least one. */
  lemma {:induction false} CeilDivPositive(n: int, d: int)
    requires d > 0 && n > 0
    ensures CeilDiv(n, d) >= 1
  {
    var q := CeilDiv(n, d);
    // 0 * d < n <= q * d
    MulStrictConverse(0, q, d);
  }
}
