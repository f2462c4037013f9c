/** Robot 36 (src/core/robot_36.cpp): full-resolution luma on every line, 2x2-averaged red
    differences on even and blue differences on odd lines. */
module Robot36 {
  import opened Arithmetic
  import opened Timing
  import opened Tone
  import opened ToneRenderer
  import opened TimingGrid
  import opened Vis
  import opened SequentialRgb
  import opened ScanPlan
  import opened ColourDifference

  const WIDTH: nat := 320
  const HEIGHT: nat := 240
  const VIS_CODE: bv8 := 8
  const EVENTS_PER_LINE: nat := 484

  predicate RobotFrame(f: Frame) {
    ValidFrame(f) && f.width == WIDTH && f.height == HEIGHT
  }

  /** The average of a 2x2 block's codes. */
  function Block(f: Frame, x: nat, y: nat, w: Weights): Byte
    requires ValidFrame(f) && x + 1 < f.width && y + 1 < f.height
  {
    Average4(Convert(f.rows[y][x], w), Convert(f.rows[y][x + 1], w),
             Convert(f.rows[y + 1][x], w), Convert(f.rows[y + 1][x + 1], w))
  }

  /** Averaged difference codes keep the nominal range, and a block of grey pixels has no
      colour difference. */
  lemma BlockInRange(f: Frame, x: nat, y: nat, w: Weights)
    requires ValidFrame(f) && x + 1 < f.width && y + 1 < f.height && (w == RED_DIFFERENCE || w == BLUE_DIFFERENCE)
    ensures 16 <= Block(f, x, y, w) <= 239
    ensures IsGrey(f.rows[y][x]) && IsGrey(f.rows[y][x + 1]) && IsGrey(f.rows[y + 1][x]) && IsGrey(f.rows[y + 1][x + 1]) ==>
              Block(f, x, y, w) == 128
  {
    forall p | p in [f.rows[y][x], f.rows[y][x + 1], f.rows[y + 1][x], f.rows[y + 1][x + 1]]
      ensures 16 <= Convert(p, w) <= 239 && (IsGrey(p) ==> Convert(p, w) == 128)
    {
      CodesInRange(p);
      if IsGrey(p) {
        GreyIsNeutral(p);
      }
    }
    hide Convert;
  }

  datatype Planes = Planes(luma: array2<Byte>, red: array2<Byte>, blue: array2<Byte>)

  predicate PlanesOf(f: Frame, p: Planes)
    requires ValidFrame(f)
    reads p.luma, p.red, p.blue
  {
    && p.luma.Length0 == f.height && p.luma.Length1 == f.width
    && p.red.Length0 == p.blue.Length0 == f.height / 2 && p.red.Length1 == p.blue.Length1 == f.width / 2
    && (forall y, x :: 0 <= y < f.height && 0 <= x < f.width ==> p.luma[y, x] == Convert(f.rows[y][x], LUMA))
    && (forall y, x :: 0 <= y < f.height / 2 && 0 <= x < f.width / 2 ==>
                         p.red[y, x] == Block(f, 2 * x, 2 * y, RED_DIFFERENCE)
                         && p.blue[y, x] == Block(f, 2 * x, 2 * y, BLUE_DIFFERENCE))
  }

  /** Fills the three planes; refuses odd dimensions. */
  method ConvertColour(f: Frame) returns (planes: Checked<Planes>)
    requires ValidFrame(f)
    ensures planes.InvalidArgument? <==> f.width % 2 != 0 || f.height % 2 != 0
    ensures !planes.Overflow?
    ensures planes.Exact? ==> PlanesOf(f, planes.value)
  {
    hide Convert, Block;
    if f.width % 2 != 0 || f.height % 2 != 0 {
      return InvalidArgument;
    }
    var luma := new Byte[f.height, f.width]((_, _) => 0);
    for y := 0 to f.height
      invariant forall j, i :: 0 <= j < y && 0 <= i < f.width ==> luma[j, i] == Convert(f.rows[j][i], LUMA)
    {
      for x := 0 to f.width
        invariant forall j, i :: 0 <= j < y && 0 <= i < f.width ==> luma[j, i] == Convert(f.rows[j][i], LUMA)
        invariant forall i :: 0 <= i < x ==> luma[y, i] == Convert(f.rows[y][i], LUMA)
      {
        luma[y, x] := Convert(f.rows[y][x], LUMA);
      }
    }
    var red := FillDifference(f, RED_DIFFERENCE);
    var blue := FillDifference(f, BLUE_DIFFERENCE);
    planes := Exact(Planes(luma, red, blue));
  }

  /** One colour-difference plane, block by block. */
  method FillDifference(f: Frame, w: Weights) returns (plane: array2<Byte>)
    requires ValidFrame(f) && f.width % 2 == 0 && f.height % 2 == 0
    ensures fresh(plane) && plane.Length0 == f.height / 2 && plane.Length1 == f.width / 2
    ensures forall y, x :: 0 <= y < f.height / 2 && 0 <= x < f.width / 2 ==> plane[y, x] == Block(f, 2 * x, 2 * y, w)
  {
    hide Convert, Block;
    plane := new Byte[f.height / 2, f.width / 2]((_, _) => 0);
    var y := 0;
    while y < f.height
      invariant 0 <= y <= f.height && y % 2 == 0
      invariant forall j, i :: 0 <= j < y / 2 && 0 <= i < f.width / 2 ==> plane[j, i] == Block(f, 2 * i, 2 * j, w)
    {
      var x := 0;
      while x < f.width
        invariant 0 <= x <= f.width && x % 2 == 0
        invariant forall j, i :: 0 <= j < y / 2 && 0 <= i < f.width / 2 ==> plane[j, i] == Block(f, 2 * i, 2 * j, w)
        invariant forall i :: 0 <= i < x / 2 ==> plane[y / 2, i] == Block(f, 2 * i, y, w)
      {
        plane[y / 2, x / 2] := Block(f, x, y, w);
        x := x + 2;
      }
      y := y + 2;
    }
  }

  // ---------------------------------------------------------------------------- plan

  function LumaRow(f: Frame, y: nat): (row: seq<Byte>)
    requires RobotFrame(f) && y < HEIGHT
    ensures |row| == WIDTH
  {
    seq(WIDTH, x requires 0 <= x < WIDTH => Convert(f.rows[y][x], LUMA))
  }

  /** Red differences for even lines, blue for odd ones. */
  function Difference(y: nat): Weights {
    if y % 2 == 0 then RED_DIFFERENCE else BLUE_DIFFERENCE
  }

  /** The averaged difference of the block that pixel pair x of line y belongs to. */
  function DifferenceCode(f: Frame, y: nat, x: nat): Byte
    requires RobotFrame(f) && y < HEIGHT && x < WIDTH / 2
  {
    Block(f, 2 * x, 2 * (y / 2), Difference(y))
  }

  function DifferenceRow(f: Frame, y: nat): (row: seq<Byte>)
    requires RobotFrame(f) && y < HEIGHT
    ensures |row| == WIDTH / 2
  {
    seq(WIDTH / 2, x requires 0 <= x < WIDTH / 2 => DifferenceCode(f, y, x))
  }

  function LinePlan(f: Frame, y: nat): (plan: seq<Item>)
    requires RobotFrame(f) && y < HEIGHT
    ensures |plan| == 6 && GoodPlan(plan)
  {
    LineFrom(LumaRow(f, y), DifferenceRow(f, y), y)
  }

  lemma LineItemsGood(luma: seq<Byte>, difference: seq<Byte>, separator: real)
    requires |luma| == WIDTH && |difference| == WIDTH / 2 && separator > 0.0
    ensures Good(Hold(Micro(9_000), 1200.0)) && Good(Hold(Micro(3_000), 1500.0)) && Good(Sweep(Micro(88_000), luma))
    ensures Good(Hold(Micro(4_500), separator)) && Good(Hold(Micro(1_500), 1900.0))
    ensures Good(Sweep(Micro(44_000), difference))
  {
    hide Micro, Good;
    GoodHold(9_000, 1200.0);
    GoodHold(3_000, 1500.0);
    GoodSweep(88_000, luma);
    GoodHold(4_500, separator);
    GoodHold(1_500, 1900.0);
    GoodSweep(44_000, difference);
  }

  function LineFrom(luma: seq<Byte>, difference: seq<Byte>, y: nat): (plan: seq<Item>)
    requires |luma| == WIDTH && |difference| == WIDTH / 2
    ensures |plan| == 6 && GoodPlan(plan)
  {
    hide Micro, Good;
    var separator := if y % 2 == 0 then 1500.0 else 2300.0;
    LineItemsGood(luma, difference, separator);
    [Hold(Micro(9_000), 1200.0), Hold(Micro(3_000), 1500.0), Sweep(Micro(88_000), luma),
     Hold(Micro(4_500), separator), Hold(Micro(1_500), 1900.0), Sweep(Micro(44_000), difference)]
  }

  function ImagePlan(f: Frame): seq<Item>
    requires RobotFrame(f)
  {
    Lines(LineOf(f), HEIGHT)
  }

  function LineOf(f: Frame): nat --> seq<Item>
    requires RobotFrame(f)
  {
    (y: nat) requires y < HEIGHT => LinePlan(f, y)
  }

  lemma LineSizes(f: Frame, y: nat)
    requires RobotFrame(f) && y < HEIGHT
    ensures PlanCount(LinePlan(f, y)) == EVENTS_PER_LINE && PlanUnits(LinePlan(f, y)) == 1_500_000
    ensures PlanCount(LinePlan(f, y)[..2]) == 2 && PlanCount(LinePlan(f, y)[..3]) == 322
            && PlanCount(LinePlan(f, y)[..5]) == 324
  {
    hide Micro, Units, Good, LumaRow, DifferenceRow;
    var p := LinePlan(f, y);
    assert p[..6] == p && p[..0] == [];
    for k := 0 to 6
      invariant k >= 2 ==> PlanCount(p[..2]) == 2
      invariant k >= 3 ==> PlanCount(p[..3]) == 322
      invariant k >= 5 ==> PlanCount(p[..5]) == 324
      invariant PlanCount(p[..k]) == [0, 1, 2, 322, 323, 324, 484][k]
      invariant PlanUnits(p[..k]) == [0, 90_000, 120_000, 1_000_000, 1_045_000, 1_060_000, 1_500_000][k]
    {
      PlanSnoc(p, k);
    }
  }

  lemma ImageIsGood(f: Frame)
    requires RobotFrame(f)
    ensures GoodLines(LineOf(f), HEIGHT, EVENTS_PER_LINE, 1_500_000)
    ensures GoodPlan(ImagePlan(f)) && PlanCount(ImagePlan(f)) == EVENTS_PER_LINE * HEIGHT
            && PlanUnits(ImagePlan(f)) == 360_000_000
  {
    hide LinePlan, PlanCount, PlanUnits, Good;
    forall y: nat | y < HEIGHT
      ensures GoodPlan(LineOf(f)(y)) && PlanCount(LineOf(f)(y)) == EVENTS_PER_LINE && PlanUnits(LineOf(f)(y)) == 1_500_000
    {
      LineSizes(f, y);
    }
    LinesGood(LineOf(f), HEIGHT, EVENTS_PER_LINE, 1_500_000);
  }

  function Encoded(f: Frame, amplitude: real): (events: seq<ToneEvent>)
    requires RobotFrame(f) && 0.0 <= amplitude <= 1.0
    ensures EventsOnGrid(events) && |events| == 13 + EVENTS_PER_LINE * HEIGHT
  {
    hide ImagePlan, VisHeader, PlanEvents, PlanCount, PlanUnits, GoodPlan, Units;
    ImageIsGood(f);
    VisHeader(VIS_CODE, amplitude) + PlanEvents(ImagePlan(f), amplitude)
  }

  // ------------------------------------------------------------------- the encoder

  method Encode(f: Frame, amplitude: real) returns (result: Checked<seq<ToneEvent>>)
    requires ValidFrame(f)
    ensures result.Exact? <==> f.width == WIDTH && f.height == HEIGHT && 0.0 <= amplitude <= 1.0
    ensures result.Exact? ==> result.value == Encoded(f, amplitude)
    ensures !result.Overflow?
  {
    hide Convert, Block, VisHeader, LinePlan, ImagePlan, PlanEvents, EventsOnGrid, GoodPlan, Lines;
    if f.width != WIDTH || f.height != HEIGHT {
      return InvalidArgument;
    }
    var header := MakeVisHeader(VIS_CODE, amplitude);
    if !header.Exact? {
      return InvalidArgument;
    }
    var planes := ConvertColour(f);
    var events := header.value;
    NoLines(f, amplitude);
    for y := 0 to HEIGHT
      invariant PlanesOf(f, planes.value) && GoodPlan(Lines(LineOf(f), y))
      invariant events == header.value + PlanEvents(Lines(LineOf(f), y), amplitude)
    {
      LineGood(f, y);
      events := AppendLine(events, f, planes.value, y, amplitude);
      PlanConcat(Lines(LineOf(f), y), LinePlan(f, y), amplitude);
      Associate(header.value, PlanEvents(Lines(LineOf(f), y), amplitude), PlanEvents(LinePlan(f, y), amplitude));
    }
    ImageUnfolds(f);
    result := Exact(events);
  }

  lemma NoLines(f: Frame, amplitude: real)
    requires RobotFrame(f) && 0.0 <= amplitude <= 1.0
    ensures Lines(LineOf(f), 0) == [] && GoodPlan([]) && PlanEvents([], amplitude) == []
  {
  }

  lemma ImageUnfolds(f: Frame)
    requires RobotFrame(f)
    ensures ImagePlan(f) == Lines(LineOf(f), HEIGHT)
  {
  }

  lemma LineGood(f: Frame, y: nat)
    requires RobotFrame(f) && y < HEIGHT
    ensures GoodPlan(LinePlan(f, y)) && Lines(LineOf(f), y + 1) == Lines(LineOf(f), y) + LinePlan(f, y)
  {
  }

  /** One line of the alternating schedule, read from the planes. */
  method AppendLine(events: seq<ToneEvent>, f: Frame, planes: Planes, y: nat, amplitude: real)
    returns (appended: seq<ToneEvent>)
    requires RobotFrame(f) && y < HEIGHT && 0.0 <= amplitude <= 1.0
    requires PlanesOf(f, planes)
    ensures appended == events + PlanEvents(LinePlan(f, y), amplitude)
  {
    hide Convert, Block, Micro, ItemEvents, PlanEvents, Good, Units;
    var luma := seq(WIDTH, x requires 0 <= x < WIDTH reads planes.luma => planes.luma[y, x]);
    assert luma == LumaRow(f, y);
    var plane := if y % 2 == 0 then planes.red else planes.blue;
    var difference := seq(WIDTH / 2, x requires 0 <= x < WIDTH / 2 reads plane => plane[y / 2, x]);
    assert difference == DifferenceRow(f, y);
    appended := AppendPlan(events, LineFrom(luma, difference, y), amplitude);
  }

  // ------------------------------------------------------------------- the receiver

  /** A receiver hears the luma of every pixel, and the averaged red or blue difference of
      every block of its line. */
  lemma ReceivesPlanes(f: Frame, amplitude: real, events: seq<ToneEvent>, y: nat, x: nat)
    requires RobotFrame(f) && 0.0 <= amplitude <= 1.0 && y < HEIGHT && x < WIDTH
    requires events == Encoded(f, amplitude) && |events| == 13 + EVENTS_PER_LINE * HEIGHT
    ensures var line := 13 + EVENTS_PER_LINE * y;
            && HeardCode(events[line + 2 + x].frequency) == Convert(f.rows[y][x], LUMA) as real
            && (events[line + 322].frequency == 1500.0 <==> Difference(y) == RED_DIFFERENCE)
            && (x < WIDTH / 2 ==> HeardCode(events[line + 324 + x].frequency) == DifferenceCode(f, y, x) as real)
  {
    hide Convert, DifferenceCode, VisHeader, PlanEvents, PlanCount, PlanUnits, HeardCode, GoodPlan, Micro;
    ImageIsGood(f);
    LineSizes(f, y);
    var at := EVENTS_PER_LINE * y;
    EventInLine(LineOf(f), HEIGHT, EVENTS_PER_LINE, 1_500_000, amplitude, y, 2, x, at + 2 + x);
    EventInLine(LineOf(f), HEIGHT, EVENTS_PER_LINE, 1_500_000, amplitude, y, 3, 0, at + 322);
    if x < WIDTH / 2 {
      ReceivesDifference(f, amplitude, events, y, x);
    }
  }

  lemma ReceivesDifference(f: Frame, amplitude: real, events: seq<ToneEvent>, y: nat, x: nat)
    requires RobotFrame(f) && 0.0 <= amplitude <= 1.0 && y < HEIGHT && x < WIDTH / 2
    requires events == Encoded(f, amplitude) && |events| == 13 + EVENTS_PER_LINE * HEIGHT
    ensures HeardCode(events[13 + EVENTS_PER_LINE * y + 324 + x].frequency) == DifferenceCode(f, y, x) as real
  {
    hide Convert, DifferenceCode, VisHeader, PlanEvents, PlanCount, PlanUnits, HeardCode, GoodPlan, Micro;
    ImageIsGood(f);
    LineSizes(f, y);
    EventInLine(LineOf(f), HEIGHT, EVENTS_PER_LINE, 1_500_000, amplitude, y, 5, x, EVENTS_PER_LINE * y + 324 + x);
  }

  // ----------------------------------------------------------------------- duration

  /** The segment durations of a line; the even and odd schedules differ in a frequency only. */
  function LineDurations(): (durations: seq<Duration>)
    ensures forall i :: 0 <= i < |durations| ==> OnGrid(durations[i])
  {
    [Micro(9_000), Micro(3_000), Micro(88_000), Micro(4_500), Micro(1_500), Micro(44_000)]
  }

  function HeaderTotal(): (total: Checked<Duration>)
    ensures total.Exact? ==> Normal(total.value)
  {
    TotalDuration(VisHeader(VIS_CODE, 0.8))
  }

  function LineTotal(): (total: Checked<Duration>)
    ensures total.Exact? ==> Normal(total.value)
  {
    SumDurations(LineDurations())
  }

  /** robot36TransmissionDuration. */
  function TransmissionDuration(): Checked<Duration> {
    hide HeaderTotal, LineTotal;
    var header :- HeaderTotal();
    var line :- LineTotal();
    var withEven :- HeaderAndLines(header, line, HEIGHT / 2);
    HeaderAndLines(withEven, line, HEIGHT / 2)
  }

  lemma LineUnits(durations: seq<Duration>)
    requires durations == [Micro(9_000), Micro(3_000), Micro(88_000), Micro(4_500), Micro(1_500), Micro(44_000)]
    ensures SumUnits(durations) == 1_500_000
  {
    hide Units, Micro, OnGrid;
    assert durations[..6] == durations && durations[..0] == [];
    for k := 0 to 6
      invariant SumUnits(durations[..k]) == [0, 90_000, 120_000, 1_000_000, 1_045_000, 1_060_000, 1_500_000][k]
    {
      SumSnoc(durations, k);
    }
  }

  lemma HeaderUnits()
    ensures HeaderTotal().Exact? && OnGrid(HeaderTotal().value) && Units(HeaderTotal().value) == 9_100_000
  {
    hide Units, OnGrid, VisHeader, TotalDuration;
    VisUnits(VIS_CODE, 0.8);
    TotalOnGrid(VisHeader(VIS_CODE, 0.8));
  }

  lemma LineTotalUnits()
    ensures LineTotal().Exact? && OnGrid(LineTotal().value) && Units(LineTotal().value) == 1_500_000
  {
    LineUnits(LineDurations());
    hide Units, OnGrid, LineDurations, SumDurations, SumUnits;
    SumOnGrid(LineDurations());
  }

  /** A header followed by as many even as odd lines. */
  lemma PartsUnits(header: Duration, even: Duration, odd: Duration)
    requires OnGrid(header) && OnGrid(even) && OnGrid(odd)
    requires Units(header) == 9_100_000 && Units(even) == Units(odd) == 1_500_000
    ensures var withEven := HeaderAndLines(header, even, HEIGHT / 2);
            && withEven.Exact? && OnGrid(withEven.value)
            && HeaderAndLines(withEven.value, odd, HEIGHT / 2).Exact?
            && OnGrid(HeaderAndLines(withEven.value, odd, HEIGHT / 2).value)
            && Units(HeaderAndLines(withEven.value, odd, HEIGHT / 2).value) == 369_100_000
  {
    hide Units, Divides, Coprime, HeaderAndLines;
    HeaderAndLinesOnGrid(header, even, HEIGHT / 2);
    HeaderAndLinesOnGrid(HeaderAndLines(header, even, HEIGHT / 2).value, odd, HEIGHT / 2);
  }

  lemma TransmissionUnits()
    ensures TransmissionDuration().Exact?
    ensures OnGrid(TransmissionDuration().value) && Units(TransmissionDuration().value) == 369_100_000
  {
    hide Units, OnGrid, HeaderTotal, LineTotal, HeaderAndLines;
    HeaderUnits();
    LineTotalUnits();
    PartsUnits(HeaderTotal().value, LineTotal().value, LineTotal().value);
  }

  /** Every encoded frame lasts exactly the independently computed 36.91 seconds. */
  lemma DurationAddsUp(f: Frame, amplitude: real)
    requires RobotFrame(f) && 0.0 <= amplitude <= 1.0
    ensures TransmissionDuration().Exact? && TotalDuration(Encoded(f, amplitude)) == TransmissionDuration()
    ensures OnGrid(TransmissionDuration().value)
            && TotalUnits(Encoded(f, amplitude)) == Units(TransmissionDuration().value) == 369_100_000
  {
    hide Units, Divides, Coprime, VisHeader, TotalDuration, TransmissionDuration, PlanEvents, PlanUnits, GoodPlan, ImagePlan, PlanCount;
    ImageIsGood(f);
    PlanLasts(ImagePlan(f), amplitude);
    VisUnits(VIS_CODE, amplitude);
    UnitsConcat(VisHeader(VIS_CODE, amplitude), PlanEvents(ImagePlan(f), amplitude));
    TotalOnGrid(Encoded(f, amplitude));
    TransmissionUnits();
    EqualUnits(TotalDuration(Encoded(f, amplitude)).value, TransmissionDuration().value);
  }
}
