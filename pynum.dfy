/**
 * Python's numeric operations on exact rationals: the geometry code divides
 * integers with `/` (true division), then truncates with `int()` or rounds
 * with `round()`. A quotient is kept exact as a numerator and a denominator.
 */
module PyNum {

  /** A non-negative rational `num / den`; `den == 0` stands for a division by zero. */
  datatype Fraction = Fraction(num: nat, den: nat)

  /** The exceptions the geometry code can raise. */
  datatype PyError = ZeroDivision | AssertionFailed

  /**
   * `int(n / d)` for non-negative operands: Python truncates toward zero,
   * which for a non-negative quotient is the floor.
   */
  function Trunc(n: nat, d: nat): (r: nat)
    requires d > 0
    ensures r * d <= n < (r + 1) * d
  {
    n / d
  }

  /**
   * `round(n / d)`: the integer nearest to the exact quotient, a tie going to
   * the even neighbour (Python 3's banker's rounding).
   */
  function RoundHalfEven(n: int, d: int): (r: int)
    requires d > 0
    ensures 2 * (n - r * d) <= d && 2 * (r * d - n) <= d
    ensures (2 * (n - r * d) == d || 2 * (r * d - n) == d) ==> r % 2 == 0
    ensures n >= 0 ==> r >= 0
  {
    var q, m := n / d, n % d;
    assert n == q * d + m;
    assert (q + 1) * d == q * d + d;
    if 2 * m < d then q
    else if 2 * m > d then q + 1
    else if q % 2 == 0 then q
    else q + 1
  }

  /**
   * The two ensures of RoundHalfEven pin the result down: any integer within
   * one half of `n / d`, even on a tie, is that result.
   */
  lemma RoundHalfEvenUnique(n: int, d: int, k: int)
    requires d > 0
    requires 2 * (n - k * d) <= d && 2 * (k * d - n) <= d
    requires (2 * (n - k * d) == d || 2 * (k * d - n) == d) ==> k % 2 == 0
    ensures k == RoundHalfEven(n, d)
  {
    var r := RoundHalfEven(n, d);
    // both k * d and r * d lie within d / 2 of n, so |k - r| * d <= d
    assert (k - r) * d == k * d - r * d;
    MulCancel(k - r, d);
    assert k * d == r * d + (k - r) * d;
  }

  /** `|a| * d <= d` with `d > 0` leaves `a` in -1..1. */
  lemma MulCancel(a: int, d: int)
    requires d > 0 && -d <= a * d <= d
    ensures -1 <= a <= 1
  {
  }

  /** Rounding is monotone against an integer bound: `n / d <= k` gives `round(n / d) <= k`. */
  lemma RoundHalfEvenAtMost(n: int, d: int, k: int)
    requires d > 0 && n <= k * d
    ensures RoundHalfEven(n, d) <= k
  {
  }

  lemma MulMono(a: int, b: int, d: int)
    requires a <= b && d >= 0
    ensures a * d <= b * d
  {
    assert b * d == a * d + (b - a) * d;
  }

  /** Python's `round(total / 2)` splits a padding so that the halves differ by at most one. */
  lemma HalfSplit(total: int)
    ensures var first := RoundHalfEven(total, 2);
            -1 <= first - (total - first) <= 1
  {
  }
}
