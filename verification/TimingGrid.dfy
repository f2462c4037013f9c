/** Durations that are whole multiples of a tenth of a microsecond, as all of the encoders'
    are: on that grid the checked operations are integer arithmetic and cannot overflow
    below 64 bits. */
module TimingGrid {
  import opened Arithmetic
  import opened Timing
  import opened Tone
  import opened ToneRenderer

  const GRID: nat := 10_000_000

  predicate OnGrid(d: Duration) {
    Normal(d) && Divides(d.denominator, GRID)
  }

  /** The duration in tenths of microseconds. */
  function Units(d: Duration): nat
    requires OnGrid(d)
  {
    NatQuotient(GRID, d.denominator);
    d.numerator * Quotient(GRID, d.denominator)
  }

  lemma UnitsExact(d: Duration)
    requires OnGrid(d)
    ensures Seconds(d) == Ratio(Units(d), GRID)
  {
    Cofactor(d.denominator, GRID);
    var k := Quotient(GRID, d.denominator);
    assert k > 0;
    ScaledRatio(d.numerator, d.denominator, k);
  }

  lemma EqualUnits(a: Duration, b: Duration)
    requires OnGrid(a) && OnGrid(b)
    ensures Units(a) == Units(b) <==> a == b
  {
    UnitsExact(a);
    UnitsExact(b);
    if Units(a) == Units(b) {
      EqualSeconds(a, b);
    }
  }

  /** Any whole number of units is a duration on the grid. */
  lemma FromUnits(n: nat)
    requires n < WORD
    ensures MakeDuration(n, GRID).Exact?
    ensures var d := MakeDuration(n, GRID).value; OnGrid(d) && Units(d) == n
  {
    MakeExact(n, GRID);
    var d := MakeDuration(n, GRID).value;
    hide MakeDuration;
    RatioEqual(n, GRID, d.numerator, d.denominator);
    CoprimeSymmetric(d.numerator, d.denominator);
    MultipleOf(d.denominator, n, d.denominator * n);
    assert d.numerator * GRID == n * d.denominator;
    CoprimeCancel(d.denominator, d.numerator, GRID);
    UnitsExact(d);
    RatioEqual(Units(d), GRID, n, GRID);
    CancelFactor(GRID, Units(d), n);
  }

  /** A duration with the seconds of some units is on the grid. */
  lemma GridSeconds(d: Duration, n: nat)
    requires Normal(d) && n < WORD && Seconds(d) == Ratio(n, GRID)
    ensures OnGrid(d) && Units(d) == n
  {
    FromUnits(n);
    MakeExact(n, GRID);
    EqualSeconds(d, MakeDuration(n, GRID).value);
  }

  lemma RepresentableUnits(n: nat)
    requires n < WORD
    ensures Representable(Ratio(n, GRID))
  {
    MakeExact(n, GRID);
    hide MakeDuration;
    assert Normal(MakeDuration(n, GRID).value);
  }

  lemma Microseconds(microseconds: nat)
    requires 10 * microseconds < WORD
    ensures FromMicroseconds(microseconds).Exact?
    ensures var d := FromMicroseconds(microseconds).value; OnGrid(d) && Units(d) == 10 * microseconds
  {
    MakeExact(microseconds, 1_000_000);
    ScaledRatio(microseconds, 1_000_000, 10);
    GridSeconds(FromMicroseconds(microseconds).value, 10 * microseconds);
  }

  /** Over a common denominator that divides the grid, the numerator is at most the units. */
  lemma NumeratorBound(d: Duration, l: nat)
    requires OnGrid(d) && l > 0 && Divides(d.denominator, l) && Divides(l, GRID)
    ensures d.numerator * Quotient(l, d.denominator) <= Units(d)
  {
    var k, m := Quotient(l, d.denominator), Quotient(GRID, d.denominator);
    Cofactor(d.denominator, l);
    Cofactor(d.denominator, GRID);
    DividesAtMost(l, GRID);
    QuotientOrder(d.denominator, k, m);
    ProductOrder(d.numerator, k, m);
  }

  lemma QuotientOrder(d: nat, k: nat, m: nat)
    requires d > 0 && d * k <= d * m
    ensures k <= m
  {
    if k > m {
      assert d * k == d * m + d * (k - m);
      MulAtLeast(k - m, d);
    }
  }

  lemma ProductOrder(n: nat, k: nat, m: nat)
    requires k <= m
    ensures n * k <= n * m
  {
  }

  lemma PlusOnGrid(a: Duration, b: Duration)
    requires OnGrid(a) && OnGrid(b) && Units(a) + Units(b) < WORD
    ensures Plus(a, b).Exact? && OnGrid(Plus(a, b).value) && Units(Plus(a, b).value) == Units(a) + Units(b)
  {
    hide Plus, Quotient, Ratio, Gcd, Units;
    PlusExact(a, b);
    var (d, e) := (a.denominator, b.denominator);
    var l := Lcm(d, e);
    LeastCommonMultiple(d, e, GRID);
    DividesAtMost(l, GRID);
    hide Lcm;
    NumeratorBound(a, l);
    NumeratorBound(b, l);
    UnitsExact(a);
    UnitsExact(b);
    RatioSum(Units(a), Units(b), GRID);
    GridSeconds(Plus(a, b).value, Units(a) + Units(b));
  }

  lemma TimesOnGrid(a: Duration, count: nat)
    requires OnGrid(a) && count < WORD && Units(a) * count < WORD
    ensures Times(a, count).Exact? && OnGrid(Times(a, count).value) && Units(Times(a, count).value) == Units(a) * count
  {
    hide Times, Units, Representable;
    TimesExact(a, count);
    UnitsExact(a);
    var n := Units(a) * count;
    RatioScaled(Units(a), GRID, count);
    RepresentableUnits(n);
    GridSeconds(Times(a, count).value, n);
  }

  lemma RatioScaled(n: nat, d: nat, count: nat)
    requires d > 0
    ensures Ratio(n * count, d) == Ratio(n, d) * count as real
  {
    RatioProduct(n, d, count, count, d, 1);
  }

  lemma DividedOnGrid(a: Duration, divisor: nat, n: nat)
    requires OnGrid(a) && 0 < divisor < WORD && Units(a) == n * divisor < WORD
    ensures DividedBy(a, divisor).Exact? && OnGrid(DividedBy(a, divisor).value) && Units(DividedBy(a, divisor).value) == n
  {
    hide DividedBy, Representable;
    DividedExact(a, divisor);
    UnitsExact(a);
    MulAtLeast(divisor, n);
    hide Units;
    RatioScaled(n, GRID, divisor);
    QuotientReal(Ratio(n, GRID), Seconds(a), divisor as real);
    RepresentableUnits(n);
    GridSeconds(DividedBy(a, divisor).value, n);
  }

  lemma QuotientReal(x: real, y: real, k: real)
    requires k > 0.0 && x * k == y
    ensures y / k == x
  {
  }

  // ------------------------------------------------------------------- event lists

  predicate EventsOnGrid(events: seq<ToneEvent>) {
    ValidEvents(events) && forall i :: 0 <= i < |events| ==> OnGrid(events[i].duration)
  }

  function TotalUnits(events: seq<ToneEvent>): nat
    requires EventsOnGrid(events)
  {
    if events == [] then 0 else TotalUnits(events[..|events| - 1]) + Units(events[|events| - 1].duration)
  }

  lemma {:induction false} UnitsConcat(a: seq<ToneEvent>, b: seq<ToneEvent>)
    requires EventsOnGrid(a) && EventsOnGrid(b)
    ensures EventsOnGrid(a + b) && TotalUnits(a + b) == TotalUnits(a) + TotalUnits(b)
    decreases |b|
  {
    hide Units, Normal;
    if b == [] {
      assert a + b == a;
    } else {
      var c := b[..|b| - 1];
      UnitsConcat(a, c);
      assert (a + b)[..|a + b| - 1] == a + c;
    }
  }

  lemma {:induction false} UniformUnits(events: seq<ToneEvent>, units: nat)
    requires EventsOnGrid(events) && forall i :: 0 <= i < |events| ==> Units(events[i].duration) == units
    ensures TotalUnits(events) == |events| * units
  {
    hide Units, Normal;
    if events != [] {
      UniformUnits(events[..|events| - 1], units);
      assert |events| * units == (|events| - 1) * units + units;
    }
  }

  /** A short enough list on the grid adds up without overflow. */
  lemma {:induction false} TotalOnGrid(events: seq<ToneEvent>)
    requires EventsOnGrid(events) && TotalUnits(events) < WORD
    ensures TotalDuration(events).Exact?
    ensures OnGrid(TotalDuration(events).value) && Units(TotalDuration(events).value) == TotalUnits(events)
  {
    hide Units, Normal, Plus;
    if events == [] {
      ZeroUnits();
    } else {
      TotalOnGrid(events[..|events| - 1]);
      PlusOnGrid(TotalDuration(events[..|events| - 1]).value, events[|events| - 1].duration);
    }
  }

  lemma ZeroUnits()
    ensures OnGrid(Duration(0, 1)) && Units(Duration(0, 1)) == 0
  {
    ZeroSeconds();
    MultipleOf(1, GRID, GRID);
  }
}
