/** Martin M1 and Scottie S1 (src/core/martin_m1.cpp, src/core/scottie_s1.cpp): their
    encoders never fail on a frame of the right size, and their durations add up. */
module SequentialModes {
  import opened Arithmetic
  import opened Timing
  import opened Tone
  import opened ToneRenderer
  import opened TimingGrid
  import opened Vis
  import opened SequentialRgb

  // ------------------------------------------------------ descriptors on the grid

  const LONGEST_SEGMENT: nat := 100_000_000
  const MOST_SEGMENTS: nat := 1000
  const LONGEST_MODE: nat := 10_000_000_000_000_000

  /** A segment of whole units, whose pixels are whole units too. */
  predicate GridSegment(d: Descriptor, s: Segment) {
    && OnGrid(s.duration) && 0 < Units(s.duration) <= LONGEST_SEGMENT
    && (s.Fixed? ==> s.frequency > 0.0)
    && (s.Scan? ==> Divides(d.width, Units(s.duration)))
  }

  predicate GridSchedule(d: Descriptor, schedule: seq<Segment>) {
    |schedule| <= MOST_SEGMENTS && forall s :: s in schedule ==> GridSegment(d, s)
  }

  predicate GridDescriptor(d: Descriptor) {
    && ValidDescriptor(d) && d.width < 0x1_0000 && d.height < 0x1_0000
    && (forall s :: s in d.preImage ==> s.Fixed?)
    && GridSchedule(d, d.preImage) && GridSchedule(d, d.firstLine) && GridSchedule(d, d.line)
  }

  lemma PositiveUnits(d: Duration)
    requires OnGrid(d)
    ensures Units(d) > 0 <==> d.numerator > 0
  {
    Cofactor(d.denominator, GRID);
  }

  lemma GridIsPlayable(d: Descriptor, s: Segment)
    requires 0 < d.width < 0x1_0000 && GridSegment(d, s)
    ensures Playable(d, s)
    ensures s.Scan? ==>
              var p := DividedBy(s.duration, d.width).value; OnGrid(p) && Units(p) * d.width == Units(s.duration)
  {
    hide Units, DividedBy;
    PositiveUnits(s.duration);
    if s.Scan? {
      Cofactor(d.width, Units(s.duration));
      NatQuotient(Units(s.duration), d.width);
      var n: nat := Units(s.duration) / d.width;
      TimesSwap(d.width, n);
      DividedOnGrid(s.duration, d.width, n);
      PositiveUnits(DividedBy(s.duration, d.width).value);
      FactorPositive(d.width, n, Units(s.duration));
    }
  }

  lemma TimesSwap(a: nat, b: nat)
    ensures a * b == b * a
  {
  }

  lemma GridTyped(d: Descriptor)
    requires GridDescriptor(d)
    ensures WellTyped(d) && AllPlayable(d, d.preImage) && AllPlayable(d, d.firstLine) && AllPlayable(d, d.line)
  {
    hide Units, DividedBy, Playable, Normal;
    forall s | s in d.preImage || s in d.firstLine || s in d.line
      ensures Playable(d, s) && Normal(s.duration)
    {
      GridIsPlayable(d, s);
      assert OnGrid(s.duration);
    }
  }

  lemma ScheduleOnGrid(d: Descriptor, schedule: seq<Segment>)
    requires GridSchedule(d, schedule)
    requires forall s :: s in schedule ==> Normal(s.duration)
    ensures ScheduleDuration(schedule).Exact?
    ensures OnGrid(ScheduleDuration(schedule).value)
    ensures Units(ScheduleDuration(schedule).value) <= |schedule| * LONGEST_SEGMENT
  {
    hide Units, Plus, Normal;
    if schedule == [] {
      ZeroUnits();
    } else {
      var prior := schedule[..|schedule| - 1];
      assert GridSegment(d, schedule[|schedule| - 1]);
      ScheduleOnGrid(d, prior);
      PlusOnGrid(ScheduleDuration(prior).value, schedule[|schedule| - 1].duration);
    }
  }

  /** The transmission duration of a descriptor on the grid never overflows. */
  lemma TransmissionOnGrid(d: Descriptor)
    requires GridDescriptor(d)
    ensures WellTyped(d) && TransmissionDuration(d).Exact?
    ensures OnGrid(TransmissionDuration(d).value) && Units(TransmissionDuration(d).value) <= LONGEST_MODE
  {
    GridTyped(d);
    SchedulesNormal(d);
    hide Units, Normal, Assemble, ScheduleDuration, VisHeader, WellTyped, TotalDuration;
    VisUnits(d.visCode, 0.8);
    TotalOnGrid(VisHeader(d.visCode, 0.8));
    ScheduleOnGrid(d, d.preImage);
    ScheduleOnGrid(d, d.firstLine);
    ScheduleOnGrid(d, d.line);
    ChainOnGrid(TotalDuration(VisHeader(d.visCode, 0.8)).value, ScheduleDuration(d.preImage).value,
                ScheduleDuration(d.firstLine).value, ScheduleDuration(d.line).value, d.height - 1);
  }

  lemma ChainOnGrid(header: Duration, pre: Duration, first: Duration, line: Duration, lines: nat)
    requires OnGrid(header) && OnGrid(pre) && OnGrid(first) && OnGrid(line) && lines < 0x1_0000
    requires Units(header) == 9_100_000 && Units(pre) <= 100_000_000_000 && Units(first) <= 100_000_000_000
    requires Units(line) <= 100_000_000_000
    ensures Assemble(header, pre, first, line, lines).Exact?
    ensures OnGrid(Assemble(header, pre, first, line, lines).value)
    ensures Units(Assemble(header, pre, first, line, lines).value) <= LONGEST_MODE
  {
    hide Units, Plus, Times, Divides, Coprime;
    PlusOnGrid(header, pre);
    var start := Plus(header, pre).value;
    PlusOnGrid(start, first);
    RestBound(Units(line), lines);
    TimesOnGrid(line, lines);
    PlusOnGrid(Plus(start, first).value, Times(line, lines).value);
  }

  lemma RestBound(units: nat, lines: nat)
    requires units <= 100_000_000_000 && lines < 0x1_0000
    ensures units * lines <= 100_000_000_000 * 65_535
  {
    ProductOrder(lines, units, 100_000_000_000);
    ProductOrder(100_000_000_000, lines, 65_535);
    TimesSwap(units, lines);
    TimesSwap(100_000_000_000, lines);
  }

  lemma {:induction false} ScheduleEventsOnGrid(d: Descriptor, schedule: seq<Segment>, row: seq<Rgb>, amplitude: real)
    requires GridDescriptor(d) && GridSchedule(d, schedule) && |row| == d.width && 0.0 <= amplitude <= 1.0
    requires Ready(d, amplitude) && AllPlayable(d, schedule)
    ensures EventsOnGrid(ScheduleEvents(d, schedule, row, amplitude))
  {
    hide Units, DividedBy, Normal, WellTyped, Divides, PixelFrequency;
    if schedule != [] {
      var prior, last := schedule[..|schedule| - 1], schedule[|schedule| - 1];
      assert GridSegment(d, last);
      ScheduleEventsOnGrid(d, prior, row, amplitude);
      GridIsPlayable(d, last);
    }
  }

  lemma {:induction false} LinesOnGrid(d: Descriptor, frame: Frame, lines: nat, amplitude: real)
    requires GridDescriptor(d) && Encodable(d, frame, amplitude) && lines <= d.height
    ensures EventsOnGrid(LinesEvents(d, frame, lines, amplitude))
  {
    hide Units, GridSegment, WellTyped, ScheduleEvents, Normal, Divides;
    if lines > 0 {
      LinesOnGrid(d, frame, lines - 1, amplitude);
      ScheduleEventsOnGrid(d, LineSchedule(d, lines - 1), frame.rows[lines - 1], amplitude);
    }
  }

  /** Units are seconds on the grid. */
  lemma {:induction false} UnitsAreLength(events: seq<ToneEvent>)
    requires EventsOnGrid(events)
    ensures Length(events) == Ratio(TotalUnits(events), GRID)
  {
    hide Units, Normal, Seconds, Divides, Ratio;
    if events == [] {
      ZeroRatio();
    } else {
      var prior, last := events[..|events| - 1], events[|events| - 1];
      UnitsAreLength(prior);
      UnitsExact(last.duration);
      RatioSum(TotalUnits(prior), Units(last.duration), GRID);
    }
  }

  lemma ZeroRatio()
    ensures Ratio(0, GRID) == 0.0
  {
  }

  /** For any descriptor on the grid and any frame of its size the events add up, without
      overflow, to exactly the independently computed duration. */
  lemma EncoderAddsUp(d: Descriptor, frame: Frame, amplitude: real)
    requires GridDescriptor(d) && d.visCode <= 0x7F && 0.0 <= amplitude <= 1.0
    requires ValidFrame(frame) && frame.width == d.width && frame.height == d.height
    ensures Encodable(d, frame, amplitude)
    ensures TransmissionDuration(d).Exact?
    ensures EventsOnGrid(Encoded(d, frame, amplitude))
    ensures TotalDuration(Encoded(d, frame, amplitude)) == TransmissionDuration(d)
    ensures OnGrid(TransmissionDuration(d).value)
    ensures TotalUnits(Encoded(d, frame, amplitude)) == Units(TransmissionDuration(d).value) <= LONGEST_MODE
  {
    GridTyped(d);
    assert Encodable(d, frame, amplitude);
    TransmissionOnGrid(d);
    DurationIsExact(d, frame, amplitude);
    var total := TransmissionDuration(d).value;
    UnitsExact(total);
    hide Units, Normal, Seconds, Divides, TransmissionDuration, TotalDuration, Encodable, WellTyped, Ratio;
    AllOnGrid(d, frame, amplitude);
    var events := Encoded(d, frame, amplitude);
    UnitsAreLength(events);
    RatioEqual(TotalUnits(events), GRID, Units(total), GRID);
    CancelFactor(GRID, TotalUnits(events), Units(total));
    TotalOnGrid(events);
  }

  lemma AllOnGrid(d: Descriptor, frame: Frame, amplitude: real)
    requires GridDescriptor(d) && Encodable(d, frame, amplitude)
    ensures EventsOnGrid(Encoded(d, frame, amplitude))
  {
    hide Units, Normal, Divides, GridSegment, LinesEvents, ScheduleEvents, WellTyped;
    LinesOnGrid(d, frame, d.height, amplitude);
    ScheduleEventsOnGrid(d, d.preImage, Blank(d.width), amplitude);
  }

  // ------------------------------------------------------------------- the two modes

  function MartinLine(): seq<Segment> {
    [Fixed(Micro(4_862), 1200.0), Fixed(Micro(572), 1500.0), Scan(Green, Micro(146_432)), Fixed(Micro(572), 1500.0),
     Scan(Blue, Micro(146_432)), Fixed(Micro(572), 1500.0), Scan(Red, Micro(146_432)), Fixed(Micro(572), 1500.0)]
  }

  function MartinM1(): Descriptor {
    Descriptor("martin-m1", "Martin M1", 44, 320, 256, [], MartinLine(), MartinLine(), 1500.0, 2300.0)
  }

  function ScottieLine(): seq<Segment> {
    [Fixed(Micro(1_500), 1500.0), Scan(Green, Micro(138_240)), Fixed(Micro(1_500), 1500.0), Scan(Blue, Micro(138_240)),
     Fixed(Micro(9_000), 1200.0), Fixed(Micro(1_500), 1500.0), Scan(Red, Micro(138_240))]
  }

  function ScottieS1(): Descriptor {
    Descriptor("scottie-s1", "Scottie S1", 60, 320, 256, [], ScottieLine(), ScottieLine(), 1500.0, 2300.0)
  }

  lemma ModesOnGrid()
    ensures GridDescriptor(MartinM1()) && GridDescriptor(ScottieS1())
  {
    hide GridSegment, Micro;
    MartinOnGrid();
    ScottieOnGrid();
  }

  lemma FixedOnGrid(d: Descriptor, microseconds: nat, frequency: real)
    requires 0 < 10 * microseconds <= LONGEST_SEGMENT && frequency > 0.0
    ensures GridSegment(d, Fixed(Micro(microseconds), frequency))
  {
    hide Units, Micro, OnGrid;
  }

  lemma ScanOnGrid(d: Descriptor, channel: Channel, microseconds: nat)
    requires 0 < 10 * microseconds <= LONGEST_SEGMENT && Divides(d.width, 10 * microseconds)
    ensures GridSegment(d, Scan(channel, Micro(microseconds)))
  {
    hide Units, Micro, OnGrid, Divides;
  }

  lemma MartinOnGrid()
    ensures GridSchedule(MartinM1(), MartinLine())
  {
    hide GridSegment, Micro;
    var d := MartinM1();
    FixedOnGrid(d, 4_862, 1200.0);
    FixedOnGrid(d, 572, 1500.0);
    ScanOnGrid(d, Green, 146_432);
    ScanOnGrid(d, Blue, 146_432);
    ScanOnGrid(d, Red, 146_432);
  }

  lemma ScottieOnGrid()
    ensures GridSchedule(ScottieS1(), ScottieLine())
  {
    hide GridSegment, Micro;
    var d := ScottieS1();
    FixedOnGrid(d, 1_500, 1500.0);
    FixedOnGrid(d, 9_000, 1200.0);
    ScanOnGrid(d, Green, 138_240);
    ScanOnGrid(d, Blue, 138_240);
    ScanOnGrid(d, Red, 138_240);
  }

  lemma ModesScanAll()
    ensures ScansAll(MartinM1()) && ScansAll(ScottieS1())
  {
    hide Micro;
    forall y: nat, c: Channel
      ensures ScansChannel(MartinM1(), y, c) && ScansChannel(ScottieS1(), y, c)
    {
      assert ScansAt(MartinM1(), y, if c.Green? then 2 else if c.Blue? then 4 else 6, c);
      assert ScansAt(ScottieS1(), y, if c.Green? then 1 else if c.Blue? then 3 else 6, c);
    }
  }

  /** Both modes encode every frame of their size into events that add up to the published
      duration, and no two frames into the same events. */
  lemma ModeEncodes(d: Descriptor, frame: Frame, other: Frame, amplitude: real)
    requires d == MartinM1() || d == ScottieS1()
    requires 0.0 <= amplitude <= 1.0
    requires ValidFrame(frame) && frame.width == 320 && frame.height == 256
    requires ValidFrame(other) && other.width == 320 && other.height == 256
    ensures Encodable(d, frame, amplitude) && Encodable(d, other, amplitude) && TransmissionDuration(d).Exact?
    ensures TotalDuration(Encoded(d, frame, amplitude)) == TransmissionDuration(d)
    ensures Encoded(d, frame, amplitude) == Encoded(d, other, amplitude) <==> frame == other
  {
    hide Encodable, TransmissionDuration, TotalDuration, Encoded, GridDescriptor, Micro;
    ModesOnGrid();
    ModesScanAll();
    EncoderAddsUp(d, frame, amplitude);
    EncoderAddsUp(d, other, amplitude);
    if Encoded(d, frame, amplitude) == Encoded(d, other, amplitude) {
      EncodingIsInjective(d, frame, other, amplitude);
    }
  }
}
