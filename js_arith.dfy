/** JavaScript's integer operators that differ from Dafny's: the truncating remainder `%` and
    `Math.abs`. (Dafny's `/` and `%` are Euclidean, which for a positive divisor is what
    `Math.floor(a / b)` and a floored remainder give.) */
module JsArith {

  function Abs(x: int): int
  {
    if x < 0 then -x else x
  }

  /** JavaScript's `%`: the remainder truncated toward zero, carrying the dividend's sign. */
  function JsRem(a: int, b: int): (r: int)
    requires b != 0
    ensures -Abs(b) < r < Abs(b)
    ensures a >= 0 ==> r >= 0
    ensures a <= 0 ==> r <= 0
  {
    if a >= 0 then a % Abs(b) else -((-a) % Abs(b))
  }

  /** The Euclidean remainder is the only remainder in 0..n-1. */
  lemma ModUnique(a: int, n: int, q: int, r: int)
    requires n > 0 && 0 <= r < n && a == q * n + r
    ensures a % n == r && a / n == q
  {
    var q', r' := a / n, a % n;
    assert (q' - q) * n == r - r';
    MulBound(q' - q, n);
  }

  /** A non-zero multiple of n is at least n away from 0. */
  lemma MulBound(k: int, n: int)
    requires n > 0
    ensures k >= 1 ==> k * n >= n
    ensures k <= -1 ==> k * n <= -n
  {
    if k >= 1 {
      assert k * n == (k - 1) * n + n;
    } else if k <= -1 {
      assert k * n == (k + 1) * n - n;
    }
  }

  /** For a positive divisor, the truncated remainder lies strictly between -b and b, agrees
      with the Euclidean one on non-negative dividends, and is b below it when negative. */
  lemma JsRemFloor(a: int, b: int)
    requires b > 0
    ensures -b < JsRem(a, b) < b
    ensures a >= 0 ==> JsRem(a, b) == a % b
    ensures JsRem(a, b) >= 0 ==> JsRem(a, b) == a % b
    ensures JsRem(a, b) < 0 ==> JsRem(a, b) + b == a % b
  {
    if a < 0 {
      JsRemNegative(a, b);
    }
  }

  /** For a negative dividend the truncated remainder is the negated remainder of -a: zero
      exactly when the Euclidean one is, and otherwise b below it. */
  lemma JsRemNegative(a: int, b: int)
    requires a < 0 < b
    ensures JsRem(a, b) == -((-a) % b)
    ensures JsRem(a, b) == 0 ==> a % b == 0
    ensures JsRem(a, b) != 0 ==> JsRem(a, b) + b == a % b
  {
    var s := (-a) % b;
    var q := (-a) / b;
    assert -a == q * b + s;
    if s == 0 {
      ModUnique(a, b, -q, 0);
    } else {
      ModUnique(a, b, -q - 1, b - s);
    }
  }

  /** Moving the dividend by a whole divisor keeps the Euclidean remainder. */
  lemma ModShift(a: int, n: int)
    requires n > 0
    ensures (a + n) % n == a % n
    ensures (a - n) % n == a % n
  {
    var q, r := a / n, a % n;
    ModUnique(a + n, n, q + 1, r);
    ModUnique(a - n, n, q - 1, r);
  }
}
