/** The JavaScript number operations the core uses, on integers and reals. */
module Numbers {

  /** `Math.ceil(a / b)` for an integer `a` and a positive integer `b`. */
  function CeilDiv(a: int, b: int): (r: int)
    requires b > 0
    ensures (r - 1) * b < a <= r * b
  {
    -((-a) / b)
  }

  /** `Math.floor(x)`. */
  function Floor(x: real): (r: int)
    ensures r as real <= x < r as real + 1.0
  {
    x.Floor
  }

  /** `Math.round(x)`: the nearest integer, halves rounded up. */
  function Round(x: real): (r: int)
    ensures x - 0.5 < r as real <= x + 0.5
  {
    (x + 0.5).Floor
  }

  /** `parseInt` applied to the decimal text of a real number: the integer
      part, truncated toward zero. */
  function Trunc(x: real): (r: int)
    ensures x >= 0.0 ==> r as real <= x < r as real + 1.0
    ensures x < 0.0 ==> r as real - 1.0 < x <= r as real
  {
    if x >= 0.0 then x.Floor else -((-x).Floor)
  }

  /** `Math.max(lo, Math.min(hi, x))`. */
  function Clamp(lo: int, hi: int, x: int): (r: int)
    requires lo <= hi
    ensures lo <= r <= hi
    ensures lo <= x <= hi ==> r == x
    ensures x < lo ==> r == lo
    ensures x > hi ==> r == hi
  {
    if x < lo then lo else if x > hi then hi else x
  }

  /** JavaScript's `%`: the remainder takes the sign of the dividend. */
  function JsRem(a: int, b: int): (r: int)
    requires b > 0
    ensures a >= 0 ==> 0 <= r < b && (a / b) * b + r == a
    ensures a < 0 ==> -b < r <= 0 && r == -((-a) % b)
  {
    if a >= 0 then a % b else -((-a) % b)
  }

  function Max(a: int, b: int): int { if a >= b then a else b }
  function Min(a: int, b: int): int { if a <= b then a else b }

  // Small steps of real arithmetic the solver does not find alone.

  lemma MulMonotone(x: real, y: real, c: real)
    requires x <= y && c >= 0.0
    ensures x * c <= y * c
  {
  }

  lemma MulStrict(x: real, y: real, c: real)
    requires x < y && c > 0.0
    ensures x * c < y * c
  {
  }

  /** A sum at most `n` times a bound has its mean at most the bound... */
  lemma MeanAtMost(sum: real, n: real, hi: real)
    requires n > 0.0 && sum <= n * hi
    ensures sum / n <= hi
  {
    var q := sum / n;
    assert q * n == sum;
    if q > hi {
      MulStrict(hi, q, n);
    }
  }

  /** ... and one at least `n` times a bound has its mean at least that. */
  lemma MeanAtLeast(sum: real, n: real, lo: real)
    requires n > 0.0 && n * lo <= sum
    ensures lo <= sum / n
  {
    var q := sum / n;
    assert q * n == sum;
    if q < lo {
      MulStrict(q, lo, n);
    }
  }

  /** The same for an integer sum and count. */
  lemma IntMeanWithin(sum: int, n: int, lo: int, hi: int)
    requires n > 0 && n * lo <= sum <= n * hi
    ensures lo as real <= sum as real / n as real <= hi as real
  {
    assert (n * lo) as real == n as real * lo as real;
    assert (n * hi) as real == n as real * hi as real;
    MeanAtLeast(sum as real, n as real, lo as real);
    MeanAtMost(sum as real, n as real, hi as real);
  }

  /** `Math.round(num / den)` for a positive denominator, without
      division: twice the numerator lies within one denominator of twice
      the rounded value times the denominator, on the half-up side. */
  lemma RoundBracket(num: int, den: int)
    requires den > 0
    ensures var r := Round(num as real / den as real);
            2 * den * r - den <= 2 * num < 2 * den * r + den
  {
    var x := num as real / den as real;
    var r := Round(x);
    assert x * den as real == num as real;
    MulMonotone(r as real - 0.5, x, den as real);
    MulStrict(x, r as real + 0.5, den as real);
    assert (2 * den * r - den) as real == 2.0 * ((r as real - 0.5) * den as real);
    assert (2 * den * r + den) as real == 2.0 * ((r as real + 0.5) * den as real);
    assert (2 * num) as real == 2.0 * (x * den as real);
    assert (2 * den * r - den) as real <= (2 * num) as real < (2 * den * r + den) as real;
  }

  /** `Math.round((num / den) * 100)`: the same bracket for a percentage. */
  lemma PercentBracket(num: int, den: int)
    requires den > 0
    ensures var r := Round(num as real / den as real * 100.0);
            2 * den * r - den <= 200 * num < 2 * den * r + den
  {
    var q := num as real / den as real;
    assert q * den as real == num as real;
    assert q * 100.0 == (100 * num) as real / den as real;
    RoundBracket(100 * num, den);
  }

  /** The bracket pins the rounded value down: a value `v` whose doubled
      multiple lies in it is the rounded value. */
  lemma BracketPins(n: int, r: int, v: int)
    requires n > 0 && 2 * n * r - n <= 2 * n * v < 2 * n * r + n
    ensures r == v
  {
    assert n * (2 * r - 1) == 2 * n * r - n && n * (2 * r + 1) == 2 * n * r + n;
    assert n * (2 * v + 1) == 2 * n * v + n && n * (2 * v - 1) == 2 * n * v - n;
    if r > v {
      IntMulMonotone(n, 2 * v + 1, 2 * r - 1);
    } else if r < v {
      IntMulMonotone(n, 2 * r + 1, 2 * v - 1);
    }
  }

  lemma IntMulMonotone(n: int, a: int, b: int)
    requires n >= 0 && a <= b
    ensures n * a <= n * b
  {
  }
}
