/** PD120 (src/core/pd_120.cpp): lines in pairs, each pair with the luma of both lines and
    the row-averaged colour differences between them. */
module Pd120 {
  import opened Arithmetic
  import opened Timing
  import opened Tone
  import opened ToneRenderer
  import opened TimingGrid
  import opened Vis
  import opened SequentialRgb
  import opened ScanPlan
  import opened ColourDifference

  const WIDTH: nat := 640
  const PAIRS: nat := 248
  const VIS_CODE: bv8 := 95
  const EVENTS_PER_PAIR: nat := 2562

  predicate PdFrame(f: Frame) {
    ValidFrame(f) && f.width == WIDTH && f.height == 2 * PAIRS
  }

  /** The average of two vertically adjacent codes. */
  function Rows(f: Frame, x: nat, y: nat, w: Weights): Byte
    requires ValidFrame(f) && x < f.width && y + 1 < f.height
  {
    Average2(Convert(f.rows[y][x], w), Convert(f.rows[y + 1][x], w))
  }

  /** Averaged difference codes keep the nominal range, and two grey pixels have no colour
      difference. */
  lemma RowsInRange(f: Frame, x: nat, y: nat, w: Weights)
    requires ValidFrame(f) && x < f.width && y + 1 < f.height && (w == RED_DIFFERENCE || w == BLUE_DIFFERENCE)
    ensures 16 <= Rows(f, x, y, w) <= 239
    ensures IsGrey(f.rows[y][x]) && IsGrey(f.rows[y + 1][x]) ==> Rows(f, x, y, w) == 128
  {
    forall p | p in [f.rows[y][x], f.rows[y + 1][x]]
      ensures 16 <= Convert(p, w) <= 239 && (IsGrey(p) ==> Convert(p, w) == 128)
    {
      CodesInRange(p);
      if IsGrey(p) {
        GreyIsNeutral(p);
      }
    }
    hide Convert;
  }

  datatype Planes = Planes(luma: array2<Byte>, red: array2<Byte>, blue: array2<Byte>)

  predicate PlanesOf(f: Frame, p: Planes)
    requires ValidFrame(f)
    reads p.luma, p.red, p.blue
  {
    && p.luma.Length0 == f.height && p.luma.Length1 == f.width
    && p.red.Length0 == p.blue.Length0 == f.height / 2 && p.red.Length1 == p.blue.Length1 == f.width
    && (forall y, x :: 0 <= y < f.height && 0 <= x < f.width ==> p.luma[y, x] == Convert(f.rows[y][x], LUMA))
    && (forall y, x :: 0 <= y < f.height / 2 && 0 <= x < f.width ==>
                         p.red[y, x] == Rows(f, x, 2 * y, RED_DIFFERENCE)
                         && p.blue[y, x] == Rows(f, x, 2 * y, BLUE_DIFFERENCE))
  }

  /** Fills the three planes; refuses an odd height. */
  method ConvertColour(f: Frame) returns (planes: Checked<Planes>)
    requires ValidFrame(f)
    ensures planes.InvalidArgument? <==> f.height % 2 != 0
    ensures !planes.Overflow?
    ensures planes.Exact? ==> PlanesOf(f, planes.value)
  {
    hide Convert, Rows;
    if f.height % 2 != 0 {
      return InvalidArgument;
    }
    var luma := new Byte[f.height, f.width]((_, _) => 0);
    for y := 0 to f.height
      invariant forall j, i :: 0 <= j < y && 0 <= i < f.width ==> luma[j, i] == Convert(f.rows[j][i], LUMA)
    {
      for x := 0 to f.width
        invariant forall j, i :: 0 <= j < y && 0 <= i < f.width ==> luma[j, i] == Convert(f.rows[j][i], LUMA)
        invariant forall i :: 0 <= i < x ==> luma[y, i] == Convert(f.rows[y][i], LUMA)
      {
        luma[y, x] := Convert(f.rows[y][x], LUMA);
      }
    }
    var red := FillDifference(f, RED_DIFFERENCE);
    var blue := FillDifference(f, BLUE_DIFFERENCE);
    planes := Exact(Planes(luma, red, blue));
  }

  /** One colour-difference plane, row pair by row pair. */
  method FillDifference(f: Frame, w: Weights) returns (plane: array2<Byte>)
    requires ValidFrame(f) && f.height % 2 == 0
    ensures fresh(plane) && plane.Length0 == f.height / 2 && plane.Length1 == f.width
    ensures forall y, x :: 0 <= y < f.height / 2 && 0 <= x < f.width ==> plane[y, x] == Rows(f, x, 2 * y, w)
  {
    hide Convert, Rows;
    plane := new Byte[f.height / 2, f.width]((_, _) => 0);
    var y := 0;
    while y < f.height
      invariant 0 <= y <= f.height && y % 2 == 0
      invariant forall j, i :: 0 <= j < y / 2 && 0 <= i < f.width ==> plane[j, i] == Rows(f, i, 2 * j, w)
    {
      for x := 0 to f.width
        invariant forall j, i :: 0 <= j < y / 2 && 0 <= i < f.width ==> plane[j, i] == Rows(f, i, 2 * j, w)
        invariant forall i :: 0 <= i < x ==> plane[y / 2, i] == Rows(f, i, y, w)
      {
        plane[y / 2, x] := Rows(f, x, y, w);
      }
      y := y + 2;
    }
  }

  // ---------------------------------------------------------------------------- plan

  function LumaRow(f: Frame, y: nat): (row: seq<Byte>)
    requires PdFrame(f) && y < 2 * PAIRS
    ensures |row| == WIDTH
  {
    seq(WIDTH, x requires 0 <= x < WIDTH => Convert(f.rows[y][x], LUMA))
  }

  /** The averaged difference of the two pixels above each other at x. */
  function DifferenceCode(f: Frame, pair: nat, x: nat, w: Weights): Byte
    requires PdFrame(f) && pair < PAIRS && x < WIDTH
  {
    Rows(f, x, 2 * pair, w)
  }

  function DifferenceRow(f: Frame, pair: nat, w: Weights): (row: seq<Byte>)
    requires PdFrame(f) && pair < PAIRS
    ensures |row| == WIDTH
  {
    seq(WIDTH, x requires 0 <= x < WIDTH => DifferenceCode(f, pair, x, w))
  }

  function PairPlan(f: Frame, pair: nat): (plan: seq<Item>)
    requires PdFrame(f) && pair < PAIRS
    ensures |plan| == 6 && GoodPlan(plan)
  {
    PairFrom(LumaRow(f, 2 * pair), DifferenceRow(f, pair, RED_DIFFERENCE), DifferenceRow(f, pair, BLUE_DIFFERENCE),
             LumaRow(f, 2 * pair + 1))
  }

  function PairFrom(first: seq<Byte>, red: seq<Byte>, blue: seq<Byte>, second: seq<Byte>): (plan: seq<Item>)
    requires |first| == |red| == |blue| == |second| == WIDTH
    ensures |plan| == 6 && GoodPlan(plan)
  {
    hide Micro, Good;
    GoodHold(20_000, 1200.0);
    GoodHold(2_080, 1500.0);
    GoodSweep(121_600, first);
    GoodSweep(121_600, red);
    GoodSweep(121_600, blue);
    GoodSweep(121_600, second);
    [Hold(Micro(20_000), 1200.0), Hold(Micro(2_080), 1500.0), Sweep(Micro(121_600), first), Sweep(Micro(121_600), red),
     Sweep(Micro(121_600), blue), Sweep(Micro(121_600), second)]
  }

  function ImagePlan(f: Frame): seq<Item>
    requires PdFrame(f)
  {
    Lines(PairOf(f), PAIRS)
  }

  function PairOf(f: Frame): nat --> seq<Item>
    requires PdFrame(f)
  {
    (pair: nat) requires pair < PAIRS => PairPlan(f, pair)
  }

  lemma PairSizes(f: Frame, pair: nat)
    requires PdFrame(f) && pair < PAIRS
    ensures PlanCount(PairPlan(f, pair)) == EVENTS_PER_PAIR && PlanUnits(PairPlan(f, pair)) == 5_084_800
    ensures forall k :: 2 <= k < 6 ==> PlanCount(PairPlan(f, pair)[..k]) == 2 + WIDTH * (k - 2)
  {
    hide *;
    PairItems(f, pair);
    SixItems(PairPlan(f, pair));
  }

  lemma SixItems(p: seq<Item>)
    requires |p| == 6 && GoodPlan(p)
    requires ItemCount(p[0]) == 1 && Units(p[0].duration) == 200_000
    requires ItemCount(p[1]) == 1 && Units(p[1].duration) == 20_800
    requires forall k :: 2 <= k < 6 ==> ItemCount(p[k]) == WIDTH && Units(p[k].duration) == 1_216_000
    ensures PlanCount(p) == EVENTS_PER_PAIR && PlanUnits(p) == 5_084_800
    ensures forall k :: 2 <= k < 6 ==> PlanCount(p[..k]) == 2 + WIDTH * (k - 2)
  {
    hide ItemCount, Units, Good, PlanCount, PlanUnits;
    NoItems(p);
    PlanSnoc(p, 0);
    PlanSnoc(p, 1);
    PlanSnoc(p, 2);
    PlanSnoc(p, 3);
    PlanSnoc(p, 4);
    PlanSnoc(p, 5);
    forall k | 2 <= k < 6 ensures PlanCount(p[..k]) == 2 + WIDTH * (k - 2) {
      assert k == 2 || k == 3 || k == 4 || k == 5;
    }
  }

  lemma NoItems(p: seq<Item>)
    requires |p| == 6 && GoodPlan(p)
    ensures p[..6] == p && PlanCount(p[..0]) == 0 && PlanUnits(p[..0]) == 0
  {
  }

  lemma PairItems(f: Frame, pair: nat)
    requires PdFrame(f) && pair < PAIRS
    ensures var p := PairPlan(f, pair);
            && ItemCount(p[0]) == 1 && Units(p[0].duration) == 200_000
            && ItemCount(p[1]) == 1 && Units(p[1].duration) == 20_800
            && forall k :: 2 <= k < 6 ==> ItemCount(p[k]) == WIDTH && Units(p[k].duration) == 1_216_000
  {
    hide Micro, Units, Good, LumaRow, DifferenceRow;
  }

  lemma ImageIsGood(f: Frame)
    requires PdFrame(f)
    ensures GoodLines(PairOf(f), PAIRS, EVENTS_PER_PAIR, 5_084_800)
    ensures GoodPlan(ImagePlan(f)) && PlanCount(ImagePlan(f)) == EVENTS_PER_PAIR * PAIRS
    ensures PlanUnits(ImagePlan(f)) == 1_261_030_400
  {
    hide PairPlan, PlanCount, PlanUnits, Good;
    forall pair: nat | pair < PAIRS
      ensures GoodPlan(PairOf(f)(pair)) && PlanCount(PairOf(f)(pair)) == EVENTS_PER_PAIR
              && PlanUnits(PairOf(f)(pair)) == 5_084_800
    {
      PairSizes(f, pair);
    }
    LinesGood(PairOf(f), PAIRS, EVENTS_PER_PAIR, 5_084_800);
  }

  function Encoded(f: Frame, amplitude: real): (events: seq<ToneEvent>)
    requires PdFrame(f) && 0.0 <= amplitude <= 1.0
    ensures EventsOnGrid(events) && |events| == 13 + EVENTS_PER_PAIR * PAIRS
  {
    hide ImagePlan, VisHeader, PlanEvents, PlanCount, PlanUnits, GoodPlan, Units;
    ImageIsGood(f);
    VisHeader(VIS_CODE, amplitude) + PlanEvents(ImagePlan(f), amplitude)
  }

  // ------------------------------------------------------------------- the encoder

  method Encode(f: Frame, amplitude: real) returns (result: Checked<seq<ToneEvent>>)
    requires ValidFrame(f)
    ensures result.Exact? <==> f.width == WIDTH && f.height == 2 * PAIRS && 0.0 <= amplitude <= 1.0
    ensures result.Exact? ==> result.value == Encoded(f, amplitude)
    ensures !result.Overflow?
  {
    hide Convert, Rows, VisHeader, PairPlan, ImagePlan, PlanEvents, EventsOnGrid, GoodPlan, Lines;
    if f.width != WIDTH || f.height != 2 * PAIRS {
      return InvalidArgument;
    }
    var header := MakeVisHeader(VIS_CODE, amplitude);
    if !header.Exact? {
      return InvalidArgument;
    }
    var planes := ConvertColour(f);
    var events := header.value;
    NoPairs(f, amplitude);
    for pair := 0 to PAIRS
      invariant PlanesOf(f, planes.value) && GoodPlan(Lines(PairOf(f), pair))
      invariant events == header.value + PlanEvents(Lines(PairOf(f), pair), amplitude)
    {
      PairGood(f, pair);
      events := AppendPair(events, f, planes.value, pair, amplitude);
      PlanConcat(Lines(PairOf(f), pair), PairPlan(f, pair), amplitude);
      Associate(header.value, PlanEvents(Lines(PairOf(f), pair), amplitude), PlanEvents(PairPlan(f, pair), amplitude));
    }
    ImageUnfolds(f);
    result := Exact(events);
  }

  lemma NoPairs(f: Frame, amplitude: real)
    requires PdFrame(f) && 0.0 <= amplitude <= 1.0
    ensures Lines(PairOf(f), 0) == [] && GoodPlan([]) && PlanEvents([], amplitude) == []
  {
  }

  lemma ImageUnfolds(f: Frame)
    requires PdFrame(f)
    ensures ImagePlan(f) == Lines(PairOf(f), PAIRS)
  {
  }

  lemma PairGood(f: Frame, pair: nat)
    requires PdFrame(f) && pair < PAIRS
    ensures GoodPlan(PairPlan(f, pair)) && Lines(PairOf(f), pair + 1) == Lines(PairOf(f), pair) + PairPlan(f, pair)
  {
  }

  /** One pair of lines, read from the planes. */
  method AppendPair(events: seq<ToneEvent>, f: Frame, planes: Planes, pair: nat, amplitude: real)
    returns (appended: seq<ToneEvent>)
    requires PdFrame(f) && pair < PAIRS && 0.0 <= amplitude <= 1.0 && PlanesOf(f, planes)
    ensures appended == events + PlanEvents(PairPlan(f, pair), amplitude)
  {
    hide Convert, Rows, Micro, ItemEvents, PlanEvents, Good, Units;
    var y := 2 * pair;
    var first := seq(WIDTH, x requires 0 <= x < WIDTH reads planes.luma => planes.luma[y, x]);
    assert first == LumaRow(f, y);
    var red := seq(WIDTH, x requires 0 <= x < WIDTH reads planes.red => planes.red[pair, x]);
    assert red == DifferenceRow(f, pair, RED_DIFFERENCE);
    var blue := seq(WIDTH, x requires 0 <= x < WIDTH reads planes.blue => planes.blue[pair, x]);
    assert blue == DifferenceRow(f, pair, BLUE_DIFFERENCE);
    var second := seq(WIDTH, x requires 0 <= x < WIDTH reads planes.luma => planes.luma[y + 1, x]);
    assert second == LumaRow(f, y + 1);
    appended := AppendPlan(events, PairFrom(first, red, blue, second), amplitude);
  }

  // ------------------------------------------------------------------- the receiver

  /** A receiver hears, in every pair, both luma rows and both averaged difference rows. */
  lemma ReceivesPlanes(f: Frame, amplitude: real, events: seq<ToneEvent>, pair: nat, x: nat)
    requires PdFrame(f) && 0.0 <= amplitude <= 1.0 && pair < PAIRS && x < WIDTH
    requires events == Encoded(f, amplitude) && |events| == 13 + EVENTS_PER_PAIR * PAIRS
    ensures var at := 13 + EVENTS_PER_PAIR * pair + 2 + x;
            && HeardCode(events[at].frequency) == LumaRow(f, 2 * pair)[x] as real
            && HeardCode(events[at + WIDTH].frequency) == DifferenceCode(f, pair, x, RED_DIFFERENCE) as real
            && HeardCode(events[at + 2 * WIDTH].frequency) == DifferenceCode(f, pair, x, BLUE_DIFFERENCE) as real
            && HeardCode(events[at + 3 * WIDTH].frequency) == LumaRow(f, 2 * pair + 1)[x] as real
  {
    hide Convert, LumaRow, DifferenceCode, VisHeader, PlanEvents, PlanCount, PlanUnits, HeardCode, GoodPlan, Micro;
    ImageIsGood(f);
    PairSizes(f, pair);
    var at := EVENTS_PER_PAIR * pair + 2 + x;
    EventInLine(PairOf(f), PAIRS, EVENTS_PER_PAIR, 5_084_800, amplitude, pair, 2, x, at);
    EventInLine(PairOf(f), PAIRS, EVENTS_PER_PAIR, 5_084_800, amplitude, pair, 3, x, at + WIDTH);
    EventInLine(PairOf(f), PAIRS, EVENTS_PER_PAIR, 5_084_800, amplitude, pair, 4, x, at + 2 * WIDTH);
    EventInLine(PairOf(f), PAIRS, EVENTS_PER_PAIR, 5_084_800, amplitude, pair, 5, x, at + 3 * WIDTH);
  }

  // ----------------------------------------------------------------------- duration

  function PairDurations(): (durations: seq<Duration>)
    ensures forall i :: 0 <= i < |durations| ==> OnGrid(durations[i])
  {
    [Micro(20_000), Micro(2_080), Micro(121_600), Micro(121_600), Micro(121_600), Micro(121_600)]
  }

  /** pd120TransmissionDuration. */
  function TransmissionDuration(): Checked<Duration> {
    var header :- TotalDuration(VisHeader(VIS_CODE, 0.8));
    var pair :- SumDurations(PairDurations());
    HeaderAndLines(header, pair, PAIRS)
  }

  lemma PairUnits()
    ensures SumUnits(PairDurations()) == 5_084_800
  {
    hide Units, Micro, OnGrid;
    var ds := PairDurations();
    assert ds[..6] == ds && ds[..0] == [];
    for k := 0 to 6
      invariant SumUnits(ds[..k]) == [0, 200_000, 220_800, 1_436_800, 2_652_800, 3_868_800, 5_084_800][k]
    {
      SumSnoc(ds, k);
    }
  }

  lemma TransmissionUnits()
    ensures TransmissionDuration().Exact?
    ensures OnGrid(TransmissionDuration().value) && Units(TransmissionDuration().value) == 1_270_130_400
  {
    hide Units, Divides, Coprime, PairDurations, VisHeader, SumDurations, SumUnits, TotalDuration, HeaderAndLines;
    VisUnits(VIS_CODE, 0.8);
    TotalOnGrid(VisHeader(VIS_CODE, 0.8));
    PairUnits();
    SumOnGrid(PairDurations());
    HeaderAndLinesOnGrid(TotalDuration(VisHeader(VIS_CODE, 0.8)).value, SumDurations(PairDurations()).value, PAIRS);
  }

  /** Every encoded frame lasts exactly the independently computed 127.01304 seconds. */
  lemma DurationAddsUp(f: Frame, amplitude: real)
    requires PdFrame(f) && 0.0 <= amplitude <= 1.0
    ensures TransmissionDuration().Exact? && TotalDuration(Encoded(f, amplitude)) == TransmissionDuration()
    ensures OnGrid(TransmissionDuration().value)
            && TotalUnits(Encoded(f, amplitude)) == Units(TransmissionDuration().value) == 1_270_130_400
  {
    hide Units, Divides, Coprime, VisHeader, TotalDuration, TransmissionDuration, PlanEvents, PlanUnits, GoodPlan, ImagePlan, PlanCount;
    ImageIsGood(f);
    PlanLasts(ImagePlan(f), amplitude);
    VisUnits(VIS_CODE, amplitude);
    UnitsConcat(VisHeader(VIS_CODE, amplitude), PlanEvents(ImagePlan(f), amplitude));
    TotalOnGrid(Encoded(f, amplitude));
    TransmissionUnits();
    EqualUnits(TotalDuration(Encoded(f, amplitude)).value, TransmissionDuration().value);
  }
}
