/** Python's integer operators that differ from Dafny's: floor division `//` and floor modulo `%`
    (Dafny's `/` and `%` are Euclidean), and list indexing with negative indices. */
module PyArith {

  /** Python's `a // b`: the quotient rounded towards negative infinity. */
  function FloorDiv(a: int, b: int): (q: int)
    requires b != 0
    ensures b > 0 ==> b * q <= a < b * q + b
    ensures b < 0 ==> b * q >= a > b * q + b
  {
    if b > 0 then a / b else (-a) / (-b)
  }

  /** Python's `a % n`: the remainder of floor division, which takes the sign of `n`. */
  function PyMod(a: int, n: int): (r: int)
    requires n != 0
    ensures n > 0 ==> 0 <= r < n
    ensures n < 0 ==> n < r <= 0
    ensures a == n * FloorDiv(a, n) + r
  {
    if n > 0 then a % n else -((-a) % (-n))
  }

  /** Python accepts `xs[p]` for `-len(xs) <= p < len(xs)`; anything else raises `IndexError`. */
  predicate IndexOk(p: int, len: int) {
    -len <= p < len
  }

  /** The list slot that `xs[p]` denotes: negative indices count from the end. */
  function Slot(p: int, len: int): (s: nat)
    requires IndexOk(p, len)
    ensures s < len
    ensures p >= 0 ==> s == p
    ensures p < 0 ==> s == len + p
  {
    if p >= 0 then p else len + p
  }

  /** Advancing a cursor that is inside `[0, n)` by one place, modulo `n`, wraps only at the end. */
  lemma AdvanceWraps(p: int, n: int)
    requires 0 <= p < n
    ensures PyMod(p + 1, n) == if p + 1 == n then 0 else p + 1
  {
    if p + 1 == n {
      assert n % n == 0;
    } else {
      assert (p + 1) % n == p + 1;
    }
  }

  /** Division with remainder is unique: a quotient and remainder in `[0, n)` are `/` and `%`. */
  lemma ModUnique(a: int, n: int, q: int, r: int)
    requires n > 0 && 0 <= r < n && a == n * q + r
    ensures a / n == q && a % n == r
  {
    var q', r' := a / n, a % n;
    assert n * (q - q') == r' - r;
    MulBounds(n, q - q');
  }

  /** A non-zero multiple of a positive `n` is at least `n` away from 0. */
  lemma MulBounds(n: int, k: int)
    requires n > 0
    ensures k >= 1 ==> n * k >= n
    ensures k <= -1 ==> n * k <= -n
  {
    if k >= 1 {
      assert n * k == n * (k - 1) + n;
    }
  }

  /** One more step moves the remainder on by one, wrapping to 0 at `n`. */
  lemma ModStep(a: int, n: int)
    requires n > 0
    ensures (a + 1) % n == if a % n + 1 == n then 0 else a % n + 1
  {
    var q, r := a / n, a % n;
    if r + 1 == n {
      ModUnique(a + 1, n, q + 1, 0);
    } else {
      ModUnique(a + 1, n, q, r + 1);
    }
  }
}
