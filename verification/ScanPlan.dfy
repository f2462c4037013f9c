/** A transmission as a plan: fixed tones, and scans of byte codes each sounding for an
    equal part of the scan. The colour-difference modes are such plans. */
module ScanPlan {
  import opened Arithmetic
  import opened Timing
  import opened Tone
  import opened ToneRenderer
  import opened TimingGrid
  import opened Vis
  import opened SequentialRgb

  const BLACK_HZ: real := 1500.0
  const WHITE_HZ: real := 2300.0

  datatype Item =
    | Hold(duration: Duration, frequency: real)
    | Sweep(duration: Duration, values: seq<Byte>)

  function CodeFrequency(value: Byte): real {
    BLACK_HZ + (WHITE_HZ - BLACK_HZ) * value as real / 255.0
  }

  /** The code a receiver hears at a frequency. */
  function HeardCode(frequency: real): real {
    (frequency - BLACK_HZ) * 255.0 / (WHITE_HZ - BLACK_HZ)
  }

  lemma CodeHeard(value: Byte)
    ensures HeardCode(CodeFrequency(value)) == value as real
    ensures BLACK_HZ <= CodeFrequency(value) <= WHITE_HZ
  {
  }

  /** An item of whole units that can be cut into its codes. */
  predicate Good(item: Item) {
    && OnGrid(item.duration) && 0 < Units(item.duration) < WORD
    && (item.Hold? ==> item.frequency > 0.0)
    && (item.Sweep? ==> 0 < |item.values| < WORD && Divides(|item.values|, Units(item.duration)))
  }

  predicate GoodPlan(plan: seq<Item>) {
    forall i :: 0 <= i < |plan| ==> Good(plan[i])
  }

  lemma GoodHold(microseconds: nat, frequency: real)
    requires 0 < 10 * microseconds < WORD && frequency > 0.0
    ensures Good(Hold(Micro(microseconds), frequency))
  {
    hide Micro, Units, OnGrid;
  }

  lemma GoodSweep(microseconds: nat, values: seq<Byte>)
    requires 0 < 10 * microseconds < WORD && 0 < |values| < WORD && Divides(|values|, 10 * microseconds)
    ensures Good(Sweep(Micro(microseconds), values))
  {
    hide Micro, Units, OnGrid, Divides;
  }

  function CodeDuration(item: Item): (d: Duration)
    requires item.Sweep? && Good(item)
    ensures DividedBy(item.duration, |item.values|) == Exact(d)
    ensures OnGrid(d) && d.numerator > 0 && Units(d) * |item.values| == Units(item.duration)
  {
    CodeUnits(item);
    DividedBy(item.duration, |item.values|).value
  }

  lemma CodeUnits(item: Item)
    requires item.Sweep? && Good(item)
    ensures DividedBy(item.duration, |item.values|).Exact?
    ensures var d := DividedBy(item.duration, |item.values|).value;
            OnGrid(d) && d.numerator > 0 && Units(d) * |item.values| == Units(item.duration)
  {
    hide Units, DividedBy;
    var w := |item.values|;
    Cofactor(w, Units(item.duration));
    NatQuotient(Units(item.duration), w);
    var n: nat := Units(item.duration) / w;
    FactorPositive(w, n, Units(item.duration));
    assert n * w == w * n;
    DividedOnGrid(item.duration, w, n);
    UnitsPositive(DividedBy(item.duration, w).value);
  }

  lemma UnitsPositive(d: Duration)
    requires OnGrid(d) && Units(d) > 0
    ensures d.numerator > 0
  {
  }

  function ItemEvents(item: Item, amplitude: real): (events: seq<ToneEvent>)
    requires Good(item) && 0.0 <= amplitude <= 1.0
    ensures |events| == ItemCount(item) && EventsOnGrid(events)
  {
    if item.Hold? then
      UnitsPositive(item.duration);
      [ToneEvent(item.duration, item.frequency, amplitude)]
    else
      seq(|item.values|, i requires 0 <= i < |item.values| => CodeEvent(item, i, amplitude))
  }

  function CodeEvent(item: Item, i: nat, amplitude: real): (e: ToneEvent)
    requires item.Sweep? && Good(item) && i < |item.values| && 0.0 <= amplitude <= 1.0
    ensures ValidEvent(e) && OnGrid(e.duration) && e.duration == CodeDuration(item)
    ensures HeardCode(e.frequency) == item.values[i] as real
  {
    CodeHeard(item.values[i]);
    ToneEvent(CodeDuration(item), CodeFrequency(item.values[i]), amplitude)
  }

  function ItemCount(item: Item): nat {
    if item.Hold? then 1 else |item.values|
  }

  function PlanEvents(plan: seq<Item>, amplitude: real): (events: seq<ToneEvent>)
    requires GoodPlan(plan) && 0.0 <= amplitude <= 1.0
    ensures |events| == PlanCount(plan) && EventsOnGrid(events)
  {
    if plan == [] then []
    else PlanEvents(plan[..|plan| - 1], amplitude) + ItemEvents(plan[|plan| - 1], amplitude)
  }

  function PlanCount(plan: seq<Item>): nat {
    if plan == [] then 0 else PlanCount(plan[..|plan| - 1]) + ItemCount(plan[|plan| - 1])
  }

  function PlanUnits(plan: seq<Item>): nat
    requires GoodPlan(plan)
  {
    if plan == [] then 0 else PlanUnits(plan[..|plan| - 1]) + Units(plan[|plan| - 1].duration)
  }

  lemma {:induction false} PlanConcat(a: seq<Item>, b: seq<Item>, amplitude: real)
    requires GoodPlan(a) && GoodPlan(b) && 0.0 <= amplitude <= 1.0
    ensures GoodPlan(a + b)
    ensures PlanEvents(a + b, amplitude) == PlanEvents(a, amplitude) + PlanEvents(b, amplitude)
    decreases |b|
  {
    hide Good, ItemEvents, EventsOnGrid, Units, PlanCount;
    if b == [] {
      assert a + b == a;
    } else {
      var c := b[..|b| - 1];
      PlanConcat(a, c, amplitude);
      assert (a + b)[..|a + b| - 1] == a + c && (a + b)[|a + b| - 1] == b[|b| - 1];
      var (x, y, z) := (PlanEvents(a, amplitude), PlanEvents(c, amplitude), ItemEvents(b[|b| - 1], amplitude));
      assert PlanEvents(b, amplitude) == y + z;
      assert x + y + z == x + (y + z);
    }
  }

  lemma {:induction false} PlanSizes(a: seq<Item>, b: seq<Item>)
    requires GoodPlan(a) && GoodPlan(b)
    ensures PlanCount(a + b) == PlanCount(a) + PlanCount(b)
    ensures PlanUnits(a + b) == PlanUnits(a) + PlanUnits(b)
    decreases |b|
  {
    hide Good, Units;
    if b == [] {
      assert a + b == a;
    } else {
      var c := b[..|b| - 1];
      PlanSizes(a, c);
      assert (a + b)[..|a + b| - 1] == a + c;
    }
  }

  /** One item more. */
  lemma PlanSnoc(plan: seq<Item>, k: nat)
    requires GoodPlan(plan) && k < |plan|
    ensures PlanCount(plan[..k + 1]) == PlanCount(plan[..k]) + ItemCount(plan[k])
    ensures PlanUnits(plan[..k + 1]) == PlanUnits(plan[..k]) + Units(plan[k].duration)
  {
    hide Units, Good;
    assert plan[..k + 1][..k] == plan[..k];
  }

  /** What a receiver takes from an event: a held tone as it is, a swept one as its code. */
  predicate Means(item: Item, i: nat, e: ToneEvent)
    requires i < ItemCount(item)
  {
    if item.Hold? then e.frequency == item.frequency && e.duration == item.duration
    else HeardCode(e.frequency) == item.values[i] as real
  }

  /** The events of an item sound where the items before it end. */
  lemma {:induction false} EventAt(plan: seq<Item>, amplitude: real, k: nat, i: nat)
    requires GoodPlan(plan) && 0.0 <= amplitude <= 1.0
    requires k < |plan| && i < ItemCount(plan[k])
    ensures PlanCount(plan[..k]) + i < |PlanEvents(plan, amplitude)|
    ensures Means(plan[k], i, PlanEvents(plan, amplitude)[PlanCount(plan[..k]) + i])
    decreases |plan|
  {
    hide Good, EventsOnGrid, Means, ItemEvents;
    var prior := plan[..|plan| - 1];
    if k < |plan| - 1 {
      EventAt(prior, amplitude, k, i);
      assert prior[..k] == plan[..k];
    } else {
      ItemAt(plan[k], amplitude, i);
    }
  }

  lemma ItemAt(item: Item, amplitude: real, i: nat)
    requires Good(item) && 0.0 <= amplitude <= 1.0 && i < ItemCount(item)
    ensures Means(item, i, ItemEvents(item, amplitude)[i])
  {
    hide Good, HeardCode;
    assert item.Sweep? ==> ItemEvents(item, amplitude)[i] == CodeEvent(item, i, amplitude);
  }

  lemma ItemUnits(item: Item, amplitude: real)
    requires Good(item) && 0.0 <= amplitude <= 1.0
    ensures TotalUnits(ItemEvents(item, amplitude)) == Units(item.duration)
  {
    hide Units, OnGrid;
    var events := ItemEvents(item, amplitude);
    if item.Hold? {
      assert events[..0] == [];
    } else {
      UniformUnits(events, Units(CodeDuration(item)));
      assert |events| * Units(CodeDuration(item)) == Units(CodeDuration(item)) * |events|;
    }
  }

  /** The events of a plan last as long as its items. */
  lemma {:induction false} PlanLasts(plan: seq<Item>, amplitude: real)
    requires GoodPlan(plan) && 0.0 <= amplitude <= 1.0
    ensures TotalUnits(PlanEvents(plan, amplitude)) == PlanUnits(plan)
  {
    hide Good, ItemEvents, Units, OnGrid;
    if plan != [] {
      var prior, last := plan[..|plan| - 1], plan[|plan| - 1];
      PlanLasts(prior, amplitude);
      ItemUnits(last, amplitude);
      UnitsConcat(PlanEvents(prior, amplitude), ItemEvents(last, amplitude));
    }
  }

  /** Appends the events of one item, as every scan loop does. */
  method AppendItem(events: seq<ToneEvent>, item: Item, amplitude: real) returns (appended: seq<ToneEvent>)
    requires Good(item) && 0.0 <= amplitude <= 1.0
    ensures appended == events + ItemEvents(item, amplitude)
  {
    if item.Hold? {
      return events + [ToneEvent(item.duration, item.frequency, amplitude)];
    }
    hide Good, OnGrid, Units;
    var codeDuration := CodeDuration(item);
    appended := events;
    for i := 0 to |item.values|
      invariant appended == events + ItemEvents(item, amplitude)[..i]
    {
      var event := ToneEvent(codeDuration, CodeFrequency(item.values[i]), amplitude);
      assert event == ItemEvents(item, amplitude)[i];
      appended := appended + [event];
    }
    assert ItemEvents(item, amplitude)[..|item.values|] == ItemEvents(item, amplitude);
  }

  /** Appends the events of a schedule, item by item. */
  method AppendPlan(events: seq<ToneEvent>, plan: seq<Item>, amplitude: real) returns (appended: seq<ToneEvent>)
    requires GoodPlan(plan) && 0.0 <= amplitude <= 1.0
    ensures appended == events + PlanEvents(plan, amplitude)
  {
    hide Good, ItemEvents, EventsOnGrid;
    appended := events;
    for k := 0 to |plan|
      invariant appended == events + PlanEvents(plan[..k], amplitude)
    {
      appended := AppendItem(appended, plan[k], amplitude);
      assert plan[..k + 1][..k] == plan[..k];
    }
    assert plan[..|plan|] == plan;
  }

  // ------------------------------------------------------------ plans made of lines

  ghost predicate GoodLines(line: nat --> seq<Item>, n: nat, count: nat, units: nat) {
    && (forall y: nat :: y < n ==> line.requires(y))
    && (forall y: nat :: y < n ==> GoodPlan(line(y)) && PlanCount(line(y)) == count && PlanUnits(line(y)) == units)
  }

  function Lines(line: nat --> seq<Item>, n: nat): seq<Item>
    requires forall y: nat :: y < n ==> line.requires(y)
  {
    if n == 0 then [] else Lines(line, n - 1) + line(n - 1)
  }

  lemma {:induction false} LinesGood(line: nat --> seq<Item>, n: nat, count: nat, units: nat)
    requires GoodLines(line, n, count, units)
    ensures GoodPlan(Lines(line, n)) && PlanCount(Lines(line, n)) == count * n && PlanUnits(Lines(line, n)) == units * n
  {
    hide PlanCount, PlanUnits, Good;
    if n == 0 {
      EmptyPlan();
    } else {
      LinesGood(line, n - 1, count, units);
      PlanSizes(Lines(line, n - 1), line(n - 1));
      assert count * n == count * (n - 1) + count && units * n == units * (n - 1) + units;
    }
  }

  lemma EmptyPlan()
    ensures GoodPlan([]) && PlanCount([]) == 0 && PlanUnits([]) == 0
  {
  }

  /** The items of a line sound at the same offsets on every line. */
  lemma {:induction false} EventInLine(line: nat --> seq<Item>, n: nat, count: nat, units: nat, amplitude: real,
                                       y: nat, k: nat, i: nat, at: nat)
    requires GoodLines(line, n, count, units) && 0.0 <= amplitude <= 1.0 && y < n
    requires k < |line(y)| && i < ItemCount(line(y)[k])
    requires at == count * y + PlanCount(line(y)[..k]) + i
    ensures GoodPlan(Lines(line, n)) && at < PlanCount(Lines(line, n))
    ensures Means(line(y)[k], i, PlanEvents(Lines(line, n), amplitude)[at])
    decreases n
  {
    hide PlanCount, PlanUnits, Good, PlanEvents, Means;
    LinesGood(line, n - 1, count, units);
    PlanConcat(Lines(line, n - 1), line(n - 1), amplitude);
    PlanSizes(Lines(line, n - 1), line(n - 1));
    if y < n - 1 {
      EventInLine(line, n - 1, count, units, amplitude, y, k, i, at);
    } else {
      EventAt(line(y), amplitude, k, i);
    }
  }

  // ----------------------------------------------------------------------- duration

  /** A running sum of durations, as every duration function keeps one. */
  function SumDurations(durations: seq<Duration>): (total: Checked<Duration>)
    requires forall i :: 0 <= i < |durations| ==> Normal(durations[i])
    ensures total.Exact? ==> Normal(total.value)
  {
    if durations == [] then
      ZeroSeconds();
      Exact(Duration(0, 1))
    else
      var total :- SumDurations(durations[..|durations| - 1]);
      PlusExact(total, durations[|durations| - 1]);
      Plus(total, durations[|durations| - 1])
  }

  function SumUnits(durations: seq<Duration>): nat
    requires forall i :: 0 <= i < |durations| ==> OnGrid(durations[i])
  {
    if durations == [] then 0 else SumUnits(durations[..|durations| - 1]) + Units(durations[|durations| - 1])
  }

  lemma {:induction false} SumOnGrid(durations: seq<Duration>)
    requires forall i :: 0 <= i < |durations| ==> OnGrid(durations[i])
    requires SumUnits(durations) < WORD
    ensures SumDurations(durations).Exact?
    ensures OnGrid(SumDurations(durations).value) && Units(SumDurations(durations).value) == SumUnits(durations)
  {
    hide Units, Plus, Divides, Coprime;
    if durations == [] {
      ZeroUnits();
    } else {
      SumOnGrid(durations[..|durations| - 1]);
      PlusOnGrid(SumDurations(durations[..|durations| - 1]).value, durations[|durations| - 1]);
    }
  }

  lemma SumSnoc(durations: seq<Duration>, k: nat)
    requires k < |durations| && forall i :: 0 <= i < |durations| ==> OnGrid(durations[i])
    ensures SumUnits(durations[..k + 1]) == SumUnits(durations[..k]) + Units(durations[k])
  {
    hide Units, OnGrid;
    assert durations[..k + 1][..k] == durations[..k];
  }

  /** A header and some lines' worth of time, twice if there are two kinds of lines. */
  function HeaderAndLines(header: Duration, line: Duration, lines: nat): Checked<Duration>
    requires Normal(header) && Normal(line) && lines < WORD
    ensures HeaderAndLines(header, line, lines).Exact? ==> Normal(HeaderAndLines(header, line, lines).value)
  {
    TimesExact(line, lines);
    var all :- Times(line, lines);
    PlusExact(header, all);
    Plus(header, all)
  }

  lemma HeaderAndLinesOnGrid(header: Duration, line: Duration, lines: nat)
    requires OnGrid(header) && OnGrid(line) && lines < WORD && Units(header) + Units(line) * lines < WORD
    ensures HeaderAndLines(header, line, lines).Exact?
    ensures OnGrid(HeaderAndLines(header, line, lines).value)
    ensures Units(HeaderAndLines(header, line, lines).value) == Units(header) + Units(line) * lines
  {
    hide Units, Plus, Times, Divides, Coprime;
    TimesOnGrid(line, lines);
    PlusOnGrid(header, Times(line, lines).value);
  }
}
