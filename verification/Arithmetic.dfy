/** Division, divisibility and greatest common divisors of natural numbers. */
module Arithmetic {

  /** One more than the largest 64-bit word. */
  const WORD: nat := 0x1_0000_0000_0000_0000

  function Min(a: nat, b: nat): nat {
    if a <= b then a else b
  }

  /** A nonzero multiple is at least as large as its divisor, on its side of zero. */
  lemma MulSign(k: int, d: nat)
    ensures k > 0 ==> k * d >= d
    ensures k < 0 ==> k * d + d <= 0
  {
    if k < 0 {
      var m := -k;
      MulAtLeast(m, d);
      assert k * d == -(m * d);
    }
  }

  lemma MulAtLeast(k: nat, d: nat)
    requires k > 0
    ensures k * d >= d
  {
  }

  /** Quotient and remainder are unique. */
  lemma DivModUnique(n: int, q: int, r: nat, d: nat)
    requires r < d && n == q * d + r
    ensures n % d == r && n / d == q
  {
    var e := n / d - q;
    assert e * d == r - n % d by {
      assert n == d * (n / d) + n % d;
    }
    MulSign(e, d);
  }

  lemma ModStep(a: nat, i: nat, capacity: nat)
    requires i < capacity
    ensures (a + i) % capacity ==
            if a % capacity + i < capacity then a % capacity + i else a % capacity + i - capacity
  {
    var q, r := a / capacity, a % capacity;
    assert a + i == q * capacity + (r + i);
    if r + i < capacity {
      DivModUnique(a + i, q, r + i, capacity);
    } else {
      assert (q + 1) * capacity == q * capacity + capacity;
      DivModUnique(a + i, q + 1, r + i - capacity, capacity);
    }
  }

  // ----------------------------------------------------------------- divisibility

  predicate Divides(d: nat, n: int) {
    d > 0 && n % d == 0
  }

  /** A multiple, by its cofactor. */
  lemma MultipleOf(d: nat, k: int, n: int)
    requires d > 0 && n == d * k
    ensures Divides(d, n) && n / d == k
  {
    assert n == k * d + 0;
    DivModUnique(n, k, 0, d);
  }

  lemma Cofactor(d: nat, n: int)
    requires Divides(d, n)
    ensures n == d * (n / d)
  {
  }

  lemma DividesSum(d: nat, a: int, b: int)
    requires Divides(d, a) && Divides(d, b)
    ensures Divides(d, a + b)
  {
    Cofactor(d, a);
    Cofactor(d, b);
    assert a + b == d * (a / d + b / d);
    MultipleOf(d, a / d + b / d, a + b);
  }

  lemma DividesProduct(d: nat, a: int, k: int)
    requires Divides(d, a)
    ensures Divides(d, a * k)
  {
    Cofactor(d, a);
    assert a * k == d * (a / d * k);
    MultipleOf(d, a / d * k, a * k);
  }

  lemma DividesAtMost(d: nat, n: nat)
    requires Divides(d, n) && n > 0
    ensures d <= n
  {
    Cofactor(d, n);
    var k := n / d;
    MulSign(k, d);
    assert n == k * d;
  }

  // ------------------------------------------------------------------------- gcd

  function Gcd(a: nat, b: nat): nat
    decreases b
  {
    if b == 0 then a else Gcd(b, a % b)
  }

  lemma {:induction false} GcdPositive(a: nat, b: nat)
    requires a > 0 || b > 0
    ensures Gcd(a, b) > 0
    decreases b
  {
    if b > 0 {
      GcdPositive(b, a % b);
    }
  }

  lemma {:induction false} GcdDivides(a: nat, b: nat)
    requires a > 0 || b > 0
    ensures Divides(Gcd(a, b), a) && Divides(Gcd(a, b), b)
    decreases b
  {
    if b == 0 {
      MultipleOf(a, 1, a);
      MultipleOf(a, 0, 0);
    } else {
      var g := Gcd(a, b);
      GcdDivides(b, a % b);
      DividesProduct(g, b, a / b);
      DividesSum(g, b * (a / b), a % b);
      assert a == b * (a / b) + a % b;
    }
  }

  lemma {:induction false} Bezout(a: nat, b: nat) returns (x: int, y: int)
    ensures a * x + b * y == Gcd(a, b)
    decreases b
  {
    if b == 0 {
      x, y := 1, 0;
    } else {
      var u, v := Bezout(b, a % b);
      x, y := v, u - a / b * v;
      BezoutStep(a, b, a / b, a % b, u, v);
    }
  }

  lemma BezoutStep(a: int, b: int, q: int, r: int, u: int, v: int)
    requires a == b * q + r
    ensures a * v + b * (u - q * v) == b * u + r * v
  {
    assert b * (q * v) == b * q * v;
    assert b * (u - q * v) == b * u - b * (q * v);
    assert a * v == b * q * v + r * v;
  }

  predicate Coprime(a: nat, b: nat) {
    Gcd(a, b) == 1
  }

  /** Numbers with a combination of one are coprime. */
  lemma CombinationCoprime(a: nat, b: nat, x: int, y: int)
    requires a * x + b * y == 1
    ensures Coprime(a, b)
  {
    assert a == 0 && b == 0 ==> a * x + b * y == 0;
    var g := Gcd(a, b);
    GcdDivides(a, b);
    DividesProduct(g, a, x);
    DividesProduct(g, b, y);
    DividesSum(g, a * x, b * y);
    DividesAtMost(g, 1);
  }

  lemma CoprimeSymmetric(a: nat, b: nat)
    requires Coprime(a, b)
    ensures Coprime(b, a)
  {
    var x, y := Bezout(a, b);
    CombinationCoprime(b, a, y, x);
  }

  /** A number that divides a product and is coprime to one factor divides the other. */
  lemma CoprimeCancel(a: nat, b: nat, c: nat)
    requires a > 0 && Coprime(a, b) && Divides(a, b * c)
    ensures Divides(a, c)
  {
    var x, y := Bezout(a, b);
    MultipleOf(a, x * c, a * (x * c));
    DividesProduct(a, b * c, y);
    DividesSum(a, a * (x * c), b * c * y);
    ScaledCombination(a, b, c, x, y);
  }

  lemma ScaledCombination(a: int, b: int, c: int, x: int, y: int)
    requires a * x + b * y == 1
    ensures a * (x * c) + b * c * y == c
  {
    assert a * (x * c) == a * x * c;
    assert b * c * y == b * y * c;
    assert a * x * c + b * y * c == (a * x + b * y) * c;
  }

  lemma CoprimeProduct(a: nat, b: nat, c: nat)
    requires Coprime(a, c) && Coprime(b, c)
    ensures Coprime(a * b, c)
  {
    var x, y := Bezout(a, c);
    var u, v := Bezout(b, c);
    ProductCombination(a, b, c, x, y, u, v);
    CombinationCoprime(a * b, c, x * u, a * x * v + y);
  }

  lemma ProductCombination(a: int, b: int, c: int, x: int, y: int, u: int, v: int)
    requires a * x + c * y == 1 && b * u + c * v == 1
    ensures a * b * (x * u) + c * (a * x * v + y) == 1
  {
    var p := a * x;
    assert p * (b * u + c * v) == p * (b * u) + p * (c * v);
    assert p * (b * u) == a * b * (x * u);
    assert p * (c * v) == c * (p * v);
    assert c * (p * v + y) == c * (p * v) + c * y;
  }

  /** Dividing out the greatest common divisor leaves coprime numbers. */
  lemma GcdQuotients(a: nat, b: nat)
    requires a > 0 || b > 0
    ensures var g := Gcd(a, b); g > 0 && a == g * (a / g) && b == g * (b / g) && Coprime(a / g, b / g)
  {
    hide Gcd, Coprime;
    var g := Gcd(a, b);
    GcdPositive(a, b);
    GcdDivides(a, b);
    Cofactor(g, a);
    Cofactor(g, b);
    NatQuotient(a, g);
    NatQuotient(b, g);
    QuotientsCoprime(a, b, a / g, b / g);
  }

  lemma NatQuotient(n: nat, d: nat)
    requires d > 0
    ensures 0 <= n / d <= n && n == d * (n / d) + n % d
  {
    var q := n / d;
    assert n == d * q + n % d;
    MulSign(q, d);
    NotBelow(q, d);
  }

  lemma NotBelow(q: int, d: nat)
    requires d > 0
    ensures q >= 0 ==> d * q >= q
  {
  }

  lemma QuotientsCoprime(a: nat, b: nat, p: nat, q: nat)
    requires Gcd(a, b) > 0 && a == Gcd(a, b) * p && b == Gcd(a, b) * q
    ensures Coprime(p, q)
  {
    var x, y := Bezout(a, b);
    QuotientCombination(Gcd(a, b), p, q, x, y);
    CombinationCoprime(p, q, x, y);
  }

  lemma QuotientCombination(g: nat, p: int, q: int, x: int, y: int)
    requires g > 0 && g * p * x + g * q * y == g
    ensures p * x + q * y == 1
  {
    assert g * p * x == g * (p * x) && g * q * y == g * (q * y);
    CancelFactor(g, p * x + q * y, 1);
  }

  lemma CancelFactor(g: nat, m: int, n: int)
    requires g > 0 && g * m == g * n
    ensures m == n
  {
    var d := m - n;
    assert d * g == 0;
    MulSign(d, g);
  }

  /** A part of a number coprime to another is coprime to it. */
  lemma CoprimePart(a: nat, b: nat, part: nat, rest: nat)
    requires Coprime(a, b) && a == part * rest
    ensures Coprime(part, b)
  {
    var x, y := Bezout(a, b);
    assert part * (rest * x) == a * x;
    CombinationCoprime(part, b, rest * x, y);
  }
}
