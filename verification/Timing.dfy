/** Exact durations (src/core/timing.cpp): normalized fractions of 64-bit numbers, with
    overflow reported instead of wrapped around. */
module Timing {
  import opened Arithmetic

  /** A value, or the exception the source throws. */
  datatype Checked<+T> = Exact(value: T) | Overflow | InvalidArgument {
    predicate IsFailure() {
      !Exact?
    }

    function PropagateFailure<U>(): Checked<U>
      requires IsFailure()
    {
      match this
      case Overflow => Overflow
      case InvalidArgument => InvalidArgument
    }

    function Extract(): T
      requires !IsFailure()
    {
      value
    }
  }

  datatype Duration = Duration(numerator: nat, denominator: nat)

  /** A fraction in lowest terms that fits its two words. */
  predicate Normal(d: Duration) {
    d.numerator < WORD && 0 < d.denominator < WORD && Coprime(d.numerator, d.denominator)
  }

  function Ratio(n: nat, d: nat): real
    requires d > 0
  {
    n as real / d as real
  }

  /** The number of seconds. */
  function Seconds(d: Duration): real
    requires d.denominator > 0
  {
    Ratio(d.numerator, d.denominator)
  }

  // -------------------------------------------------------------------- the source

  function CheckedAdd(left: nat, right: nat): Checked<nat>
    requires left < WORD
  {
    if right > WORD - 1 - left then Overflow else Exact(left + right)
  }

  function CheckedMultiply(left: nat, right: nat): (product: Checked<nat>)
    ensures product == if left * right >= WORD then Overflow else Exact(left * right)
  {
    ProductBound(left, right);
    if left != 0 && right > (WORD - 1) / left then Overflow else Exact(left * right)
  }

  lemma ProductBound(left: nat, right: nat)
    ensures left * right >= WORD <==> left != 0 && right > (WORD - 1) / left
  {
    if left > 0 {
      var q, r := (WORD - 1) / left, (WORD - 1) % left;
      assert WORD - 1 == left * q + r;
      if right > q {
        assert left * right == left * q + left * (right - q);
        MulAtLeast(right - q, left);
      } else {
        assert left * q == left * right + left * (q - right);
      }
    }
  }

  function Quotient(n: nat, d: nat): (q: nat)
    requires d > 0
    ensures q <= n && n == d * q + n % d
  {
    NatQuotient(n, d);
    n / d
  }

  /** A number divided by the greatest common divisor of two others. */
  function Share(n: nat, a: nat, b: nat): nat
    requires a > 0 || b > 0
  {
    GcdPositive(a, b);
    Quotient(n, Gcd(a, b))
  }

  function MakeDuration(numerator: nat, denominator: nat): Checked<Duration> {
    if denominator == 0 then InvalidArgument
    else
      Exact(Duration(Share(numerator, numerator, denominator), Share(denominator, numerator, denominator)))
  }

  function FromMicroseconds(microseconds: nat): Checked<Duration> {
    MakeDuration(microseconds, 1_000_000)
  }

  function Plus(left: Duration, right: Duration): Checked<Duration>
    requires left.denominator > 0
  {
    var leftMultiplier := Share(right.denominator, left.denominator, right.denominator);
    var rightMultiplier := Share(left.denominator, left.denominator, right.denominator);
    var leftNumerator :- CheckedMultiply(left.numerator, leftMultiplier);
    var rightNumerator :- CheckedMultiply(right.numerator, rightMultiplier);
    var numerator :- CheckedAdd(leftNumerator, rightNumerator);
    var denominator :- CheckedMultiply(left.denominator, leftMultiplier);
    MakeDuration(numerator, denominator)
  }

  function Times(duration: Duration, count: nat): Checked<Duration> {
    if count == 0 then MakeDuration(0, 1)
    else
      var numerator :- CheckedMultiply(duration.numerator, Share(count, duration.denominator, count));
      MakeDuration(numerator, Share(duration.denominator, duration.denominator, count))
  }

  function DividedBy(duration: Duration, divisor: nat): Checked<Duration> {
    if divisor == 0 then InvalidArgument
    else
      var denominator :- CheckedMultiply(duration.denominator, Share(divisor, duration.numerator, divisor));
      MakeDuration(Share(duration.numerator, duration.numerator, divisor), denominator)
  }

  function SampleCount(duration: Duration, sampleRate: nat): Checked<nat>
    requires duration.denominator > 0
  {
    if sampleRate == 0 then InvalidArgument
    else
      ReducedPositive(duration.denominator, sampleRate);
      var rate := Share(sampleRate, duration.denominator, sampleRate);
      var denominator := Share(duration.denominator, duration.denominator, sampleRate);
      var scaled :- CheckedMultiply(duration.numerator, rate);
      Exact(Quotient(scaled, denominator))
  }

  /** Both numbers divided by their greatest common divisor. */
  lemma ReducedPositive(a: nat, b: nat)
    requires a > 0 || b > 0
    ensures var (g, p, q) := (Gcd(a, b), Share(a, a, b), Share(b, a, b));
            && g > 0 && a == g * p && b == g * q && Coprime(p, q)
            && (a > 0 ==> p > 0) && (b > 0 ==> q > 0)
  {
    GcdQuotients(a, b);
    var g, p, q := Gcd(a, b), Share(a, a, b), Share(b, a, b);
    hide Gcd, Coprime, Share;
    FactorPositive(g, p, a);
    FactorPositive(g, q, b);
  }

  lemma FactorPositive(g: nat, p: nat, n: nat)
    requires n == g * p
    ensures n > 0 ==> p > 0
  {
  }

  // -------------------------------------------------------------------- fractions

  lemma RealProduct(a: nat, b: nat)
    ensures (a * b) as real == a as real * b as real
  {
  }

  lemma RatioTimes(n: nat, d: nat)
    requires d > 0
    ensures Ratio(n, d) * d as real == n as real
  {
  }

  lemma RatioEqual(n: nat, d: nat, m: nat, e: nat)
    requires d > 0 && e > 0
    ensures Ratio(n, d) == Ratio(m, e) <==> n * e == m * d
  {
    var x, y := Ratio(n, d), Ratio(m, e);
    RatioTimes(n, d);
    RatioTimes(m, e);
    RealProduct(n, e);
    RealProduct(m, d);
    ScaledEqual(x, y, d as real, e as real);
  }

  lemma ScaledEqual(x: real, y: real, d: real, e: real)
    requires d > 0.0 && e > 0.0
    ensures x == y <==> x * d * e == y * e * d
  {
    var p := d * e;
    assert p > 0.0;
    assert x * d * e == x * p && y * e * d == y * p;
    if x * p == y * p {
      assert x == x * p / p;
    }
  }

  // ------------------------------------------------------------ equality of durations

  /** Lowest terms: a fraction equal to a normal one has multiples of its terms. */
  lemma LowestTerms(n: nat, d: nat, m: nat, e: nat)
    requires d > 0 && e > 0 && Coprime(n, d) && n * e == m * d
    ensures Divides(d, e) && e / d * n == m
  {
    CoprimeSymmetric(n, d);
    MultipleOf(d, m, m * d);
    CoprimeCancel(d, n, e);
    Cofactor(d, e);
    var k := e / d;
    assert n * (d * k) == d * (k * n);
    CancelFactor(d, k * n, m);
  }

  /** Comparing the two words compares the rational numbers. */
  lemma EqualSeconds(a: Duration, b: Duration)
    requires Normal(a) && Normal(b)
    ensures a == b <==> Seconds(a) == Seconds(b)
  {
    if Seconds(a) == Seconds(b) {
      var (n, d, m, e) := (a.numerator, a.denominator, b.numerator, b.denominator);
      RatioEqual(n, d, m, e);
      LowestTerms(n, d, m, e);
      LowestTerms(m, e, n, d);
      DividesAtMost(d, e);
      DividesAtMost(e, d);
      assert n * d == m * d;
      CancelFactor(d, n, m);
    }
  }

  // -------------------------------------------------------------------- operations

  lemma MakeExact(n: nat, d: nat)
    requires n < WORD && 0 < d < WORD
    ensures MakeDuration(n, d).Exact?
    ensures var c := MakeDuration(n, d).value; Normal(c) && Seconds(c) == Ratio(n, d)
  {
    ReducedPositive(n, d);
    var g := Gcd(n, d);
    var p, q := Share(n, n, d), Share(d, n, d);
    hide Quotient, Share;
    SameRatio(n, d, p, q, g);
    RatioEqual(p, q, n, d);
  }

  lemma SameRatio(n: nat, d: nat, p: nat, q: nat, g: nat)
    requires n == g * p && d == g * q
    ensures p * d == n * q
  {
    assert p * (g * q) == g * p * q;
  }

  function Lcm(a: nat, b: nat): nat
    requires a > 0 || b > 0
  {
    a * Share(b, a, b)
  }

  /** The common denominator of an addition is the least possible one. */
  lemma LeastCommonMultiple(a: nat, b: nat, m: nat)
    requires a > 0 && b > 0
    ensures Divides(a, Lcm(a, b)) && Divides(b, Lcm(a, b))
    ensures Divides(a, m) && Divides(b, m) ==> Divides(Lcm(a, b), m)
  {
    ReducedPositive(a, b);
    var g := Gcd(a, b);
    var p, q := Share(a, a, b), Share(b, a, b);
    hide Quotient, Gcd, Share;
    BothDivide(g, p, q);
    if Divides(a, m) && Divides(b, m) {
      Cofactor(a, m);
      Cofactor(b, m);
      NatQuotient(m, a);
      NatQuotient(m, b);
      CommonMultiple(g, p, q, m / a, m / b, m);
    }
  }

  lemma BothDivide(g: nat, p: nat, q: nat)
    requires g * p > 0 && g * q > 0
    ensures Divides(g * p, g * p * q) && Divides(g * q, g * p * q)
  {
    MultipleOf(g * p, q, g * p * q);
    assert g * p * q == g * q * p;
    MultipleOf(g * q, p, g * p * q);
  }

  lemma CommonMultiple(g: nat, p: nat, q: nat, j: nat, k: nat, m: nat)
    requires g > 0 && g * p > 0 && g * q > 0 && Coprime(p, q) && m == g * p * j && m == g * q * k
    ensures g * p * q > 0 && Divides(g * p * q, m)
  {
    assert g * p * j == g * (p * j) && g * q * k == g * (q * k);
    CancelFactor(g, p * j, q * k);
    assert q > 0 && p > 0;
    MultipleOf(q, k, q * k);
    CoprimeSymmetric(p, q);
    CoprimeCancel(q, p, j);
    Cofactor(q, j);
    var i := j / q;
    assert g * p * (q * i) == g * p * q * i;
    ProductPositive(g * p, q);
    MultipleOf(g * p * q, i, m);
  }

  lemma ProductPositive(a: nat, b: nat)
    requires a > 0 && b > 0
    ensures a * b > 0
  {
  }

  /** When it does not report overflow, + is the exact sum in lowest terms; it reports
      overflow exactly when one of the two numerators over the least common denominator,
      their sum, or that denominator needs more than 64 bits. */
  lemma PlusExact(a: Duration, b: Duration)
    requires Normal(a) && Normal(b)
    ensures Plus(a, b).Exact? ==> Normal(Plus(a, b).value) && Seconds(Plus(a, b).value) == Seconds(a) + Seconds(b)
    ensures var l := Lcm(a.denominator, b.denominator);
            var (x, y) := (a.numerator * Quotient(l, a.denominator), b.numerator * Quotient(l, b.denominator));
            Plus(a, b).Overflow? <==> x >= WORD || y >= WORD || x + y >= WORD || l >= WORD
    ensures !Plus(a, b).InvalidArgument?
  {
    var (d, e) := (a.denominator, b.denominator);
    ReducedPositive(d, e);
    var g := Gcd(d, e);
    var p, q := Share(d, d, e), Share(e, d, e);
    hide Plus, Quotient, Share, Gcd, CheckedMultiply, CheckedAdd, Lcm;
    LcmQuotients(g, p, q, d, e);
    var x, y := a.numerator * q, b.numerator * p;
    PlusUnfolds(a, b, p, q, x, y, d * q);
    if x + y < WORD && d * q < WORD {
      PlusValue(a, b, p, q);
    }
  }

  lemma PlusUnfolds(a: Duration, b: Duration, p: nat, q: nat, x: nat, y: nat, l: nat)
    requires Normal(a) && Normal(b)
    requires p == Share(a.denominator, a.denominator, b.denominator)
             && q == Share(b.denominator, a.denominator, b.denominator)
    requires x == a.numerator * q && y == b.numerator * p && l == a.denominator * q
    ensures Plus(a, b) == if x >= WORD || y >= WORD || x + y >= WORD || l >= WORD then Overflow else MakeDuration(x + y, l)
  {
    hide Share, MakeDuration;
  }

  lemma PlusValue(a: Duration, b: Duration, p: nat, q: nat)
    requires a.denominator * q == b.denominator * p && p > 0 && q > 0 && a.denominator > 0 && b.denominator > 0
    requires a.numerator * q + b.numerator * p < WORD && a.denominator * q < WORD
    ensures var c := MakeDuration(a.numerator * q + b.numerator * p, a.denominator * q);
            c.Exact? && Normal(c.value) && Seconds(c.value) == Seconds(a) + Seconds(b)
  {
    var x, y, l := a.numerator * q, b.numerator * p, a.denominator * q;
    ProductPositive(a.denominator, q);
    MakeExact(x + y, l);
    ScaledRatio(a.numerator, a.denominator, q);
    ScaledRatio(b.numerator, b.denominator, p);
    RatioSum(x, y, l);
  }

  lemma LcmQuotients(g: nat, p: nat, q: nat, d: nat, e: nat)
    requires d == g * p && e == g * q && d > 0 && e > 0 && q == Share(e, d, e)
    ensures d * q == Lcm(d, e) == e * p && Quotient(Lcm(d, e), d) == q && Quotient(Lcm(d, e), e) == p
  {
    assert g * p * q == g * q * p;
    MultipleOf(d, q, d * q);
    MultipleOf(e, p, e * p);
  }

  lemma ScaledRatio(n: nat, d: nat, k: nat)
    requires d > 0 && k > 0
    ensures d * k > 0 && Ratio(n * k, d * k) == Ratio(n, d)
  {
    ProductPositive(d, k);
    assert n * k * d == n * (d * k);
    RatioEqual(n * k, d * k, n, d);
  }

  lemma RatioSum(x: nat, y: nat, d: nat)
    requires d > 0
    ensures Ratio(x + y, d) == Ratio(x, d) + Ratio(y, d)
  {
  }

  /** + can report overflow although the exact sum fits both words. */
  lemma SpuriousOverflow()
    ensures var (a, b) := (Duration(WORD - 1, 2), Duration(1, 2));
            && Normal(a) && Normal(b) && Plus(a, b).Overflow?
            && Normal(Duration(WORD / 2, 1)) && Seconds(Duration(WORD / 2, 1)) == Seconds(a) + Seconds(b)
  {
    assert Gcd(WORD - 1, 2) == Gcd(2, 1) == Gcd(1, 0);
    assert Gcd(1, 2) == Gcd(2, 1);
    assert Gcd(WORD / 2, 1) == Gcd(1, 0);
    assert Gcd(2, 2) == Gcd(2, 0);
  }

  /** A normal duration of a given value exists. */
  ghost predicate Representable(seconds: real) {
    exists d: Duration :: Normal(d) && Seconds(d) == seconds
  }

  /** A fraction in lowest terms is representable exactly when its terms fit. */
  lemma RepresentableExactly(n: nat, d: nat)
    requires d > 0 && Coprime(n, d)
    ensures Representable(Ratio(n, d)) <==> n < WORD && d < WORD
  {
    if n < WORD && d < WORD {
      assert Normal(Duration(n, d)) && Seconds(Duration(n, d)) == Ratio(n, d);
    } else if Representable(Ratio(n, d)) {
      var c: Duration :| Normal(c) && Seconds(c) == Ratio(n, d);
      RatioEqual(n, d, c.numerator, c.denominator);
      LowestTerms(n, d, c.numerator, c.denominator);
      LowestTerms(c.numerator, c.denominator, n, d);
      DividesAtMost(d, c.denominator);
      DividesAtMost(c.denominator, d);
      assert n * d == c.numerator * d;
      CancelFactor(d, n, c.numerator);
    }
  }

  lemma RatioProduct(n: nat, d: nat, count: nat, k: nat, m: nat, g: nat)
    requires d > 0 && g > 0 && count == g * k && d == g * m && m > 0
    ensures Ratio(n * k, m) == Ratio(n, d) * count as real
  {
    RatioTimes(n, d);
    RatioTimes(n * k, m);
    RealProduct(n, k);
    RealProduct(g, k);
    RealProduct(g, m);
    ProductRatio(Ratio(n * k, m), Ratio(n, d), n as real, g as real, k as real, m as real);
  }

  lemma ProductRatio(x: real, y: real, n: real, g: real, k: real, m: real)
    requires m > 0.0 && x * m == n * k && y * (g * m) == n
    ensures x == y * (g * k)
  {
    var z := y * (g * k);
    assert z * m == y * (g * m) * k;
    assert (x - z) * m == 0.0;
  }

  /** * is exact, and reports overflow only when no duration has the exact product. */
  lemma TimesExact(a: Duration, count: nat)
    requires Normal(a) && count < WORD
    ensures Times(a, count).Exact? ==>
              Normal(Times(a, count).value) && Seconds(Times(a, count).value) == Seconds(a) * count as real
    ensures Times(a, count).Overflow? <==> !Representable(Seconds(a) * count as real)
    ensures !Times(a, count).InvalidArgument?
  {
    if count == 0 {
      MakeExact(0, 1);
      RepresentableExactly(0, 1);
    } else {
      var d := a.denominator;
      ReducedPositive(d, count);
      hide Times, Quotient, Share, Gcd, CheckedMultiply, Representable;
      var k, m := Share(count, d, count), Share(d, d, count);
      var x := a.numerator * k;
      TimesUnfolds(a, count, k, m, x);
      TimesValue(a, count, k, m, Gcd(d, count), x);
    }
  }

  lemma TimesValue(a: Duration, count: nat, k: nat, m: nat, g: nat, x: nat)
    requires Normal(a) && g > 0 && m > 0 && a.denominator == g * m && count == g * k && Coprime(m, k)
             && x == a.numerator * k
    ensures Representable(Seconds(a) * count as real) <==> x < WORD
    ensures x < WORD ==>
              MakeDuration(x, m).Exact? && Normal(MakeDuration(x, m).value)
              && Seconds(MakeDuration(x, m).value) == Seconds(a) * count as real
  {
    hide Representable, Gcd, MakeDuration;
    RatioProduct(a.numerator, a.denominator, count, k, m, g);
    ProductCoprimeToPart(a.numerator, a.denominator, k, m, g);
    assert Ratio(x, m) == Seconds(a) * count as real;
    RepresentableExactly(x, m);
    PartAtMost(a.denominator, m, g);
    if x < WORD {
      MakeExact(x, m);
    }
  }

  lemma PartAtMost(d: nat, m: nat, g: nat)
    requires d == g * m && g > 0
    ensures m <= d
  {
    MulAtLeast(g, m);
  }

  lemma TimesUnfolds(a: Duration, count: nat, k: nat, m: nat, x: nat)
    requires Normal(a) && count > 0
    requires k == Share(count, a.denominator, count) && m == Share(a.denominator, a.denominator, count)
             && x == a.numerator * k
    ensures Times(a, count) == if x >= WORD then Overflow else MakeDuration(x, m)
  {
    hide Share, MakeDuration;
  }

  lemma ProductCoprimeToPart(n: nat, d: nat, k: nat, m: nat, g: nat)
    requires Coprime(n, d) && d == g * m && Coprime(m, k)
    ensures Coprime(n * k, m)
  {
    CoprimeSymmetric(n, d);
    assert d == m * g;
    CoprimePart(d, n, m, g);
    CoprimeSymmetric(m, n);
    CoprimeSymmetric(m, k);
    CoprimeProduct(n, k, m);
  }

  lemma RatioDivision(n: nat, d: nat, divisor: nat, m: nat, k: nat, g: nat)
    requires d > 0 && g > 0 && n == g * m && divisor == g * k && k > 0
    ensures d * k > 0 && divisor > 0 && Ratio(m, d * k) == Ratio(n, d) / divisor as real
  {
    ProductPositive(d, k);
    ProductPositive(g, k);
    RatioTimes(n, d);
    RatioTimes(m, d * k);
    RealProduct(g, m);
    RealProduct(g, k);
    RealProduct(d, k);
    DivisionRatio(Ratio(m, d * k), Ratio(n, d), m as real, g as real, k as real, d as real);
  }

  lemma DivisionRatio(x: real, y: real, m: real, g: real, k: real, d: real)
    requires d > 0.0 && k > 0.0 && g > 0.0 && x * (d * k) == m && y * d == g * m
    ensures g * k > 0.0 && x == y / (g * k)
  {
    assert x * (g * k) * d == g * m;
    assert (x * (g * k) - y) * d == 0.0;
    assert x * (g * k) == y;
  }

  /** / is exact, and reports overflow only when no duration has the exact quotient. */
  lemma DividedExact(a: Duration, divisor: nat)
    requires Normal(a) && divisor < WORD
    ensures DividedBy(a, divisor).InvalidArgument? <==> divisor == 0
    ensures DividedBy(a, divisor).Exact? ==>
              divisor != 0 && Normal(DividedBy(a, divisor).value)
              && Seconds(DividedBy(a, divisor).value) == Seconds(a) / divisor as real
    ensures divisor != 0 ==> (DividedBy(a, divisor).Overflow? <==> !Representable(Seconds(a) / divisor as real))
  {
    if divisor != 0 {
      var (n, d) := (a.numerator, a.denominator);
      ReducedPositive(n, divisor);
      var g := Gcd(n, divisor);
      var m, k := Share(n, n, divisor), Share(divisor, n, divisor);
      hide Quotient, Share;
      RatioDivision(n, d, divisor, m, k, g);
      CoprimePart(n, d, m, g);
      CoprimeSymmetric(m, d);
      CoprimeSymmetric(m, k);
      CoprimeProduct(d, k, m);
      CoprimeSymmetric(d * k, m);
      RepresentableExactly(m, d * k);
      if d * k < WORD {
        MakeExact(m, d * k);
      }
    }
  }

  lemma FloorOfRatio(n: nat, d: nat)
    requires d > 0
    ensures Ratio(n, d).Floor == Quotient(n, d)
  {
    var q, r := Quotient(n, d), n % d;
    RatioTimes(n, d);
    RealProduct(d, q);
    assert Ratio(n, d) * d as real == d as real * q as real + r as real;
    FloorBetween(Ratio(n, d), d as real, q, r as real);
  }

  lemma FloorBetween(x: real, d: real, q: nat, r: real)
    requires 0.0 <= r < d && x * d == d * q as real + r
    ensures x.Floor == q
  {
    var y := x - q as real;
    assert y * d == r;
    RealSign(y, d);
  }

  lemma RealSign(y: real, d: real)
    requires d > 0.0
    ensures y >= 1.0 ==> y * d >= d
    ensures y < 0.0 ==> y * d < 0.0
  {
  }

  function ReducedRate(a: Duration, rate: nat): nat
    requires rate > 0
  {
    Share(rate, a.denominator, rate)
  }

  /** The number of frames is the exact product of duration and rate, rounded down. */
  lemma SampleCountExact(a: Duration, rate: nat)
    requires Normal(a) && rate > 0
    ensures SampleCount(a, rate).Exact? ==> SampleCount(a, rate).value == (Seconds(a) * rate as real).Floor
    ensures SampleCount(a, rate).Overflow? <==> a.numerator * ReducedRate(a, rate) >= WORD
    ensures !SampleCount(a, rate).InvalidArgument?
  {
    ReducedPositive(a.denominator, rate);
    var g := Gcd(a.denominator, rate);
    var k, m := Share(rate, a.denominator, rate), Share(a.denominator, a.denominator, rate);
    assert ReducedRate(a, rate) == k;
    hide SampleCount, Quotient, Share, Gcd, CheckedMultiply, ReducedRate;
    var x := a.numerator * k;
    SampleCountUnfolds(a, rate, k, m, x);
    SampleCountValue(a, rate, k, m, g, x);
  }

  lemma SampleCountValue(a: Duration, rate: nat, k: nat, m: nat, g: nat, x: nat)
    requires Normal(a) && g > 0 && m > 0 && a.denominator == g * m && rate == g * k && x == a.numerator * k
    ensures Quotient(x, m) == (Seconds(a) * rate as real).Floor
  {
    hide Quotient, Gcd;
    RatioProduct(a.numerator, a.denominator, rate, k, m, g);
    FloorOfRatio(x, m);
  }

  lemma SampleCountUnfolds(a: Duration, rate: nat, k: nat, m: nat, x: nat)
    requires Normal(a) && rate > 0
    requires k == Share(rate, a.denominator, rate) && m == Share(a.denominator, a.denominator, rate)
             && x == a.numerator * k && m > 0
    ensures SampleCount(a, rate) == if x >= WORD then Overflow else Exact(Quotient(x, m))
  {
    hide Quotient, Share;
  }
}
