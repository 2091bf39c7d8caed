/** Rounding and integer division as the Go runtime does them, and the modular
    facts the circular buffers rest on. */
module Numbers {
  function Max(a: int, b: int): int {
    if a >= b then a else b
  }

  function Min(a: int, b: int): int {
    if a <= b then a else b
  }

  function MaxReal(a: real, b: real): real {
    if a >= b then a else b
  }

  function MinReal(a: real, b: real): real {
    if a <= b then a else b
  }

  function Abs(x: real): real {
    if x >= 0.0 then x else -x
  }

  /** math.Round: the nearest integer, halves away from zero. */
  function Round(x: real): int {
    if x >= 0.0 then (x + 0.5).Floor else -(0.5 - x).Floor
  }

  /** int64(x): truncation toward zero. */
  function Truncate(x: real): int {
    if x >= 0.0 then x.Floor else -(-x).Floor
  }

  predicate Whole(x: real) {
    x == Truncate(x) as real
  }

  /** Go's integer division truncates toward zero. */
  function Quotient(a: int, b: int): int
    requires b > 0
  {
    if a >= 0 then a / b else -((-a) / b)
  }

  /** Go's remainder takes the sign of the dividend. */
  function Remainder(a: int, b: int): int
    requires b > 0
  {
    a - b * Quotient(a, b)
  }

  /** The ((x % n) + n) % n idiom is the Euclidean remainder. */
  function Wrap(x: int, n: int): (r: int)
    requires n > 0
    ensures r == x % n
  {
    assert x < 0 ==> -x == n * ((-x) / n) + (-x) % n;
    assert Remainder(x, n) == if x >= 0 then x % n else -((-x) % n);
    ModShift(x, 0, n);
    WrapNegative(x, n);
    Remainder(Remainder(x, n) + n, n)
  }

  lemma WrapNegative(x: int, n: int)
    requires n > 0
    ensures x >= 0 ==> (x % n + n) % n == x % n
    ensures x < 0 ==> (n - (-x) % n) % n == x % n
  {
    ModShift(x, n, n);
    assert x + n == n * ((x + n) / n) + (x + n) % n;
    assert x == n * (x / n) + x % n;
    MultipleBound(n, (x + n) / n - x / n - 1);
    assert n * ((x + n) / n - x / n - 1) == n * ((x + n) / n) - n * (x / n) - n;
    if x < 0 {
      var y := -x;
      var r := n - y % n;
      assert y == n * (y / n) + y % n;
      assert r == n * (r / n) + r % n;
      assert n * (x / n) == x - x % n;
      var q := r / n - x / n - y / n - 1;
      assert n * q == n * (r / n) - n * (x / n) - n * (y / n) - n;
      MultipleBound(n, q);
    }
  }

  lemma RoundNearest(x: real)
    ensures x - 0.5 <= Round(x) as real <= x + 0.5
    ensures x >= 0.0 ==> Round(x) >= 0
  {
  }

  lemma TimesMonotone(x: real, y: real, k: real)
    requires x <= y && k >= 0.0
    ensures x * k <= y * k
  {
  }

  lemma QuotientTimes(x: real, k: real)
    requires k > 0.0
    ensures x / k * k == x
  {
  }

  lemma TimesStrict(x: real, y: real, k: real)
    requires x < y && k > 0.0
    ensures x * k < y * k
  {
  }

  lemma MultipleBound(n: int, q: int)
    requires n > 0
    ensures q >= 1 ==> n * q >= n
    ensures q <= -1 ==> n * q <= -n
  {
  }

  /** Two numbers less than `n` apart with equal remainders are the same number. */
  lemma ModUnique(a: int, b: int, n: int)
    requires n > 0 && a % n == b % n && 0 <= a - b < n
    ensures a == b
  {
    assert a - b == n * (a / n - b / n);
    MultipleBound(n, a / n - b / n);
  }

  lemma ModShift(a: int, k: int, n: int)
    requires n > 0
    ensures (a % n + k) % n == (a + k) % n
  {
    var lhs, rhs := (a % n + k) % n, (a + k) % n;
    var q := (a + k) / n - (a % n + k) / n - a / n;
    assert a == n * (a / n) + a % n;
    assert a % n + k == n * ((a % n + k) / n) + lhs;
    assert a + k == n * ((a + k) / n) + rhs;
    assert n * q == n * ((a + k) / n) - n * ((a % n + k) / n) - n * (a / n);
    MultipleBound(n, q);
  }

  lemma SmallMod(x: int, n: int)
    requires 0 <= x < n
    ensures x % n == x
  {
  }

  lemma WholeTurn(x: int, n: int)
    requires n > 0
    ensures (x + n) % n == x % n
  {
    var q := (x + n) / n - x / n - 1;
    assert x == n * (x / n) + x % n;
    assert x + n == n * ((x + n) / n) + (x + n) % n;
    assert n * q == n * ((x + n) / n) - n * (x / n) - n;
    MultipleBound(n, q);
  }

  /** Where `n` steps lead round a ring of `size`. */
  function Turned(n: nat, size: nat): (r: nat)
    requires size > 0
    ensures r < size
  {
    if n == 0 then 0 else (Turned(n - 1, size) + 1) % size
  }

  lemma {:induction false} TurnedIs(n: nat, size: nat)
    requires size > 0
    ensures Turned(n, size) == n % size
  {
    if n > 0 {
      TurnedIs(n - 1, size);
      ModShift(n - 1, 1, size);
    } else {
      SmallMod(0, size);
    }
  }
}
