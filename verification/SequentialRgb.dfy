/** Sequential RGB modes (src/core/sequential_rgb.cpp): a descriptor's line schedule turns
    a frame into tone events; a receiver that knows only the schedule gets the frame back. */
module SequentialRgb {
  import opened Arithmetic
  import opened Timing
  import opened Tone
  import opened ToneRenderer
  import opened Vis

  type Byte = x: int | 0 <= x < 256

  datatype Channel = Red | Green | Blue

  datatype Rgb = Rgb(red: Byte, green: Byte, blue: Byte)

  datatype Frame = Frame(width: nat, height: nat, rows: seq<seq<Rgb>>)

  predicate ValidFrame(f: Frame) {
    |f.rows| == f.height && forall y :: 0 <= y < f.height ==> |f.rows[y]| == f.width
  }

  datatype Segment =
    | Fixed(duration: Duration, frequency: real)
    | Scan(channel: Channel, duration: Duration)

  datatype Descriptor = Descriptor(
    id: string, displayName: string, visCode: bv8, width: nat, height: nat,
    preImage: seq<Segment>, firstLine: seq<Segment>, line: seq<Segment>, blackHz: real, whiteHz: real)

  function Component(pixel: Rgb, channel: Channel): Byte {
    match channel
    case Red => pixel.red
    case Green => pixel.green
    case Blue => pixel.blue
  }

  function PixelFrequency(d: Descriptor, value: Byte): real {
    d.blackHz + (d.whiteHz - d.blackHz) * value as real / 255.0
  }

  predicate ValidDescriptor(d: Descriptor) {
    && d.id != "" && d.displayName != "" && d.width != 0 && d.height != 0
    && d.firstLine != [] && d.line != []
    && 0.0 < d.blackHz < d.whiteHz
  }

  // ----------------------------------------------------------------- what it encodes

  /** The descriptor's types: normal durations, and no scan before the image. */
  predicate WellTyped(d: Descriptor) {
    && d.width < 0x1_0000 && d.height < 0x1_0000
    && (forall s :: s in d.preImage ==> s.Fixed? && Normal(s.duration))
    && (forall s :: s in d.firstLine + d.line ==> Normal(s.duration))
  }

  /** A segment whose events can be constructed. */
  predicate Playable(d: Descriptor, s: Segment)
    requires d.width > 0
  {
    && Normal(s.duration) && s.duration.numerator > 0
    && (s.Fixed? ==> s.frequency > 0.0)
    && (s.Scan? ==> DividedBy(s.duration, d.width).Exact? && DividedBy(s.duration, d.width).value.numerator > 0)
  }

  predicate AllPlayable(d: Descriptor, schedule: seq<Segment>)
    requires d.width > 0
  {
    forall s :: s in schedule ==> Playable(d, s)
  }

  function PixelDuration(d: Descriptor, s: Segment): (p: Duration)
    requires d.width > 0 && WellTyped(d) && s.Scan? && Playable(d, s)
    ensures Normal(p) && p.numerator > 0 && Seconds(p) == Seconds(s.duration) / d.width as real
  {
    DividedExact(s.duration, d.width);
    DividedBy(s.duration, d.width).value
  }

  predicate Ready(d: Descriptor, amplitude: real) {
    ValidDescriptor(d) && WellTyped(d) && 0.0 <= amplitude <= 1.0
  }

  function SegmentEvents(d: Descriptor, s: Segment, row: seq<Rgb>, amplitude: real): (events: seq<ToneEvent>)
    requires Ready(d, amplitude) && Playable(d, s) && |row| == d.width
    ensures ValidEvents(events) && |events| == SegmentCount(d, s)
  {
    if s.Fixed? then [ToneEvent(s.duration, s.frequency, amplitude)]
    else
      seq(d.width, x requires 0 <= x < d.width => PixelEvent(d, s, row[x], amplitude))
  }

  function PixelEvent(d: Descriptor, s: Segment, pixel: Rgb, amplitude: real): (e: ToneEvent)
    requires Ready(d, amplitude) && s.Scan? && Playable(d, s)
    ensures ValidEvent(e)
  {
    FrequencyInRange(d, Component(pixel, s.channel));
    ToneEvent(PixelDuration(d, s), PixelFrequency(d, Component(pixel, s.channel)), amplitude)
  }

  lemma FrequencyInRange(d: Descriptor, value: Byte)
    requires d.blackHz < d.whiteHz
    ensures d.blackHz <= PixelFrequency(d, value) <= d.whiteHz
  {
    FractionInRange(d.whiteHz - d.blackHz, value as real);
  }

  lemma FractionInRange(span: real, v: real)
    requires span > 0.0 && 0.0 <= v <= 255.0
    ensures 0.0 <= span * v / 255.0 <= span
  {
    ScaledOrder(0.0, v, span);
    ScaledOrder(v, 255.0, span);
  }

  function SegmentCount(d: Descriptor, s: Segment): nat {
    if s.Fixed? then 1 else d.width
  }

  function ScheduleEvents(d: Descriptor, schedule: seq<Segment>, row: seq<Rgb>, amplitude: real): (events: seq<ToneEvent>)
    requires Ready(d, amplitude) && AllPlayable(d, schedule) && |row| == d.width
    ensures ValidEvents(events) && |events| == ScheduleCount(d, schedule)
  {
    if schedule == [] then []
    else
      var last := schedule[|schedule| - 1];
      ScheduleEvents(d, schedule[..|schedule| - 1], row, amplitude) + SegmentEvents(d, last, row, amplitude)
  }

  function ScheduleCount(d: Descriptor, schedule: seq<Segment>): nat {
    if schedule == [] then 0
    else ScheduleCount(d, schedule[..|schedule| - 1]) + SegmentCount(d, schedule[|schedule| - 1])
  }

  function LineSchedule(d: Descriptor, y: nat): seq<Segment> {
    if y == 0 then d.firstLine else d.line
  }

  predicate Encodable(d: Descriptor, frame: Frame, amplitude: real) {
    && Ready(d, amplitude) && d.visCode <= 0x7F
    && ValidFrame(frame) && frame.width == d.width && frame.height == d.height
    && AllPlayable(d, d.preImage) && AllPlayable(d, d.firstLine) && (d.height > 1 ==> AllPlayable(d, d.line))
  }

  /** The first lines of an image. */
  function LinesEvents(d: Descriptor, frame: Frame, lines: nat, amplitude: real): (events: seq<ToneEvent>)
    requires Encodable(d, frame, amplitude) && lines <= d.height
    ensures ValidEvents(events)
  {
    if lines == 0 then []
    else
      LinesEvents(d, frame, lines - 1, amplitude)
      + ScheduleEvents(d, LineSchedule(d, lines - 1), frame.rows[lines - 1], amplitude)
  }

  /** Everything before the first line. */
  function Opening(d: Descriptor, amplitude: real): (events: seq<ToneEvent>)
    requires Ready(d, amplitude) && AllPlayable(d, d.preImage)
    ensures ValidEvents(events)
  {
    VisHeader(d.visCode, amplitude) + ScheduleEvents(d, d.preImage, Blank(d.width), amplitude)
  }

  function Blank(width: nat): (row: seq<Rgb>)
    ensures |row| == width
  {
    seq(width, _ => Rgb(0, 0, 0))
  }

  function Encoded(d: Descriptor, frame: Frame, amplitude: real): (events: seq<ToneEvent>)
    requires Encodable(d, frame, amplitude)
    ensures ValidEvents(events)
  {
    Opening(d, amplitude) + LinesEvents(d, frame, d.height, amplitude)
  }

  // -------------------------------------------------------------------- the encoder

  /** Appends the events of one schedule, or fails where an event cannot be constructed. */
  method AppendSchedule(events: seq<ToneEvent>, d: Descriptor, schedule: seq<Segment>, row: seq<Rgb>, amplitude: real)
    returns (result: Checked<seq<ToneEvent>>)
    requires Ready(d, amplitude) && |row| == d.width && forall s :: s in schedule ==> Normal(s.duration)
    ensures result.Exact? <==> AllPlayable(d, schedule)
    ensures result.Exact? ==> result.value == events + ScheduleEvents(d, schedule, row, amplitude)
  {
    assert d.width > 0;
    hide WellTyped, Normal, ValidDescriptor, DividedBy;
    var appended := events;
    for i := 0 to |schedule|
      invariant AllPlayable(d, schedule[..i])
      invariant appended == events + ScheduleEvents(d, schedule[..i], row, amplitude)
    {
      var s := schedule[i];
      assert schedule[..i + 1][..i] == schedule[..i];
      var part := SegmentOf(d, s, row, amplitude);
      if !part.Exact? {
        assert !AllPlayable(d, schedule);
        return part;
      }
      assert AllPlayable(d, schedule[..i + 1]);
      appended := appended + part.value;
    }
    assert schedule[..|schedule|] == schedule;
    result := Exact(appended);
  }

  /** The events of one segment. */
  method SegmentOf(d: Descriptor, s: Segment, row: seq<Rgb>, amplitude: real) returns (result: Checked<seq<ToneEvent>>)
    requires Ready(d, amplitude) && |row| == d.width && Normal(s.duration)
    ensures result.Exact? <==> Playable(d, s)
    ensures result.Exact? ==> result.value == SegmentEvents(d, s, row, amplitude)
  {
    hide DividedBy, Seconds, Component;
    if s.Fixed? {
      var event := MakeEvent(s.duration, s.frequency, amplitude);
      if !event.Exact? {
        return InvalidArgument;
      }
      return Exact([event.value]);
    }
    DividedExact(s.duration, d.width);
    var pixelDuration := DividedBy(s.duration, d.width);
    if !pixelDuration.Exact? {
      return Overflow;
    }
    if s.duration.numerator == 0 || pixelDuration.value.numerator == 0 {
      return InvalidArgument;
    }
    var events: seq<ToneEvent> := [];
    for x := 0 to d.width
      invariant events == SegmentEvents(d, s, row, amplitude)[..x]
    {
      FrequencyInRange(d, Component(row[x], s.channel));
      var frequency := PixelFrequency(d, Component(row[x], s.channel));
      hide PixelFrequency;
      var event := MakeEvent(pixelDuration.value, frequency, amplitude);
      assert event == Exact(PixelEvent(d, s, row[x], amplitude));
      events := events + [event.value];
    }
    result := Exact(events);
  }

  method Encode(d: Descriptor, frame: Frame, amplitude: real) returns (result: Checked<seq<ToneEvent>>)
    requires WellTyped(d) && ValidFrame(frame)
    ensures result.Exact? <==> Encodable(d, frame, amplitude)
    ensures result.Exact? ==> result.value == Encoded(d, frame, amplitude)
  {
    hide WellTyped, AllPlayable, ScheduleEvents, VisHeader;
    if !ValidDescriptor(d) || frame.width != d.width || frame.height != d.height {
      return InvalidArgument;
    }
    var header := MakeVisHeader(d.visCode, amplitude);
    if !header.Exact? {
      return InvalidArgument;
    }
    SchedulesNormal(d);
    var opening := AppendSchedule(header.value, d, d.preImage, Blank(d.width), amplitude);
    if !opening.Exact? {
      return opening;
    }
    var first := AppendSchedule(opening.value, d, d.firstLine, frame.rows[0], amplitude);
    if !first.Exact? {
      return first;
    }
    var events := first.value;
    for y := 1 to d.height
      invariant y > 1 ==> AllPlayable(d, d.line)
      invariant events == opening.value + LineByLine(d, frame, y, amplitude)
    {
      var line := AppendSchedule(events, d, d.line, frame.rows[y], amplitude);
      if !line.Exact? {
        return line;
      }
      events := line.value;
    }
    SameLines(d, frame, d.height, amplitude);
    result := Exact(events);
  }

  lemma SchedulesNormal(d: Descriptor)
    requires WellTyped(d)
    ensures forall s :: s in d.preImage || s in d.firstLine || s in d.line ==> Normal(s.duration)
  {
  }

  /** The first line and some more, when only those lines' schedules are known playable. */
  function LineByLine(d: Descriptor, frame: Frame, lines: nat, amplitude: real): seq<ToneEvent>
    requires Ready(d, amplitude) && ValidFrame(frame) && frame.width == d.width && frame.height == d.height
    requires 0 < lines <= d.height && AllPlayable(d, d.firstLine) && (lines > 1 ==> AllPlayable(d, d.line))
  {
    if lines == 1 then ScheduleEvents(d, d.firstLine, frame.rows[0], amplitude)
    else LineByLine(d, frame, lines - 1, amplitude) + ScheduleEvents(d, d.line, frame.rows[lines - 1], amplitude)
  }

  lemma {:induction false} SameLines(d: Descriptor, frame: Frame, lines: nat, amplitude: real)
    requires Encodable(d, frame, amplitude) && 0 < lines <= d.height
    ensures LineByLine(d, frame, lines, amplitude) == LinesEvents(d, frame, lines, amplitude)
  {
    hide ScheduleEvents, Encodable;
    if lines > 1 {
      SameLines(d, frame, lines - 1, amplitude);
    } else {
      assert LinesEvents(d, frame, 0, amplitude) == [];
    }
  }

  // ------------------------------------------------------------------- the receiver

  /** Where a segment of a schedule starts. */
  function SegmentStart(d: Descriptor, schedule: seq<Segment>, k: nat): nat
    requires k <= |schedule|
  {
    ScheduleCount(d, schedule[..k])
  }

  /** Where a line starts, after header and pre-image schedule. */
  function LineStart(d: Descriptor, y: nat): nat {
    if y == 0 then 13 + ScheduleCount(d, d.preImage)
    else LineStart(d, y - 1) + ScheduleCount(d, LineSchedule(d, y - 1))
  }

  /** The event that carries a pixel of the channel scanned by segment k of line y. */
  function PixelIndex(d: Descriptor, y: nat, k: nat, x: nat): nat
    requires k <= |LineSchedule(d, y)|
  {
    LineStart(d, y) + SegmentStart(d, LineSchedule(d, y), k) + x
  }

  /** The value a receiver hears at a frequency. */
  function HeardValue(d: Descriptor, frequency: real): real
    requires d.blackHz < d.whiteHz
  {
    (frequency - d.blackHz) * 255.0 / (d.whiteHz - d.blackHz)
  }

  lemma HeardExactly(d: Descriptor, value: Byte)
    requires d.blackHz < d.whiteHz
    ensures HeardValue(d, PixelFrequency(d, value)) == value as real
  {
    InverseScale(d.whiteHz - d.blackHz, value as real);
  }

  lemma InverseScale(span: real, v: real)
    requires span > 0.0
    ensures span * v / 255.0 * 255.0 / span == v
  {
    assert span * v / 255.0 * 255.0 == span * v;
  }

  lemma {:induction false} SegmentAt(d: Descriptor, schedule: seq<Segment>, row: seq<Rgb>, amplitude: real,
                                     k: nat, x: nat)
    requires Ready(d, amplitude) && AllPlayable(d, schedule) && |row| == d.width
    requires k < |schedule| && schedule[k].Scan? && x < d.width
    ensures var events := ScheduleEvents(d, schedule, row, amplitude);
            var i := SegmentStart(d, schedule, k) + x;
            i < |events| && events[i] == PixelEvent(d, schedule[k], row[x], amplitude)
    decreases |schedule|
  {
    hide PixelEvent, Playable, WellTyped, Normal;
    var prior := schedule[..|schedule| - 1];
    if k < |schedule| - 1 {
      SegmentAt(d, prior, row, amplitude, k, x);
      assert prior[..k] == schedule[..k];
    }
  }

  lemma {:induction false} LineAt(d: Descriptor, frame: Frame, lines: nat, amplitude: real, y: nat, i: nat)
    requires Encodable(d, frame, amplitude) && y < lines <= d.height
    requires i < ScheduleCount(d, LineSchedule(d, y))
    ensures var events := LinesEvents(d, frame, lines, amplitude);
            && |events| == LineStart(d, lines) - LineStart(d, 0)
            && LineStart(d, 0) <= LineStart(d, y)
            && LineStart(d, y) - LineStart(d, 0) + i < |events|
            && events[LineStart(d, y) - LineStart(d, 0) + i] == ScheduleEvents(d, LineSchedule(d, y), frame.rows[y], amplitude)[i]
    decreases lines
  {
    hide WellTyped, ScheduleEvents, ScheduleCount;
    if y < lines - 1 {
      LineAt(d, frame, lines - 1, amplitude, y, i);
    } else {
      LinesCount(d, frame, lines - 1, amplitude);
    }
  }

  lemma {:induction false} LinesCount(d: Descriptor, frame: Frame, lines: nat, amplitude: real)
    requires Encodable(d, frame, amplitude) && lines <= d.height
    ensures |LinesEvents(d, frame, lines, amplitude)| == LineStart(d, lines) - LineStart(d, 0)
    decreases lines
  {
    hide WellTyped, ScheduleEvents, ScheduleCount;
    if lines > 0 {
      LinesCount(d, frame, lines - 1, amplitude);
    }
  }

  /** The event count that the source precomputes. */
  function EventCount(d: Descriptor): nat
    requires d.height > 0
  {
    13 + |d.preImage| + ScheduleCount(d, d.firstLine) + ScheduleCount(d, d.line) * (d.height - 1)
  }

  lemma {:induction false} StartOfLine(d: Descriptor, y: nat)
    requires WellTyped(d) && y > 0
    ensures LineStart(d, y) == 13 + |d.preImage| + ScheduleCount(d, d.firstLine) + ScheduleCount(d, d.line) * (y - 1)
  {
    hide Normal;
    FixedCount(d, d.preImage);
    if y > 1 {
      StartOfLine(d, y - 1);
      var n := ScheduleCount(d, d.line);
      assert n * (y - 1) == n * (y - 2) + n;
    } else {
      assert LineStart(d, 1) == LineStart(d, 0) + ScheduleCount(d, d.firstLine);
    }
  }

  lemma {:induction false} FixedCount(d: Descriptor, schedule: seq<Segment>)
    requires forall s :: s in schedule ==> s.Fixed?
    ensures ScheduleCount(d, schedule) == |schedule|
  {
    if schedule != [] {
      FixedCount(d, schedule[..|schedule| - 1]);
    }
  }

  lemma EncodedCount(d: Descriptor, frame: Frame, amplitude: real)
    requires Encodable(d, frame, amplitude)
    ensures |Encoded(d, frame, amplitude)| == EventCount(d)
  {
    hide ScheduleEvents, ScheduleCount, VisHeader;
    LinesCount(d, frame, d.height, amplitude);
    StartOfLine(d, d.height);
  }

  /** A receiver driven only by the schedule hears every scanned component of every pixel. */
  lemma ReceivesPixel(d: Descriptor, frame: Frame, amplitude: real, y: nat, k: nat, x: nat)
    requires Encodable(d, frame, amplitude) && y < d.height && x < d.width
    requires k < |LineSchedule(d, y)| && LineSchedule(d, y)[k].Scan?
    ensures var events := Encoded(d, frame, amplitude);
            && PixelIndex(d, y, k, x) < |events|
            && HeardValue(d, events[PixelIndex(d, y, k, x)].frequency)
            == Component(frame.rows[y][x], LineSchedule(d, y)[k].channel) as real
  {
    hide WellTyped, ScheduleEvents, ScheduleCount, VisHeader, Normal, HeardValue, PixelFrequency, Component;
    var schedule := LineSchedule(d, y);
    SegmentAt(d, schedule, frame.rows[y], amplitude, k, x);
    LineAt(d, frame, d.height, amplitude, y, SegmentStart(d, schedule, k) + x);
    HeardExactly(d, Component(frame.rows[y][x], schedule[k].channel));
  }

  /** Every channel is scanned on every line. */
  ghost predicate ScansAll(d: Descriptor) {
    forall y, c :: 0 <= y < d.height ==> ScansChannel(d, y, c)
  }

  ghost predicate ScansChannel(d: Descriptor, y: nat, c: Channel) {
    exists k :: ScansAt(d, y, k, c)
  }

  predicate ScansAt(d: Descriptor, y: nat, k: int, c: Channel) {
    0 <= k < |LineSchedule(d, y)| && LineSchedule(d, y)[k].Scan? && LineSchedule(d, y)[k].channel == c
  }

  /** No two frames have the same event list. */
  lemma EncodingIsInjective(d: Descriptor, f: Frame, g: Frame, amplitude: real)
    requires Encodable(d, f, amplitude) && Encodable(d, g, amplitude) && ScansAll(d)
    requires Encoded(d, f, amplitude) == Encoded(d, g, amplitude)
    ensures f == g
  {
    hide Encoded, HeardValue, PixelIndex;
    forall y, x | 0 <= y < d.height && 0 <= x < d.width
      ensures f.rows[y][x] == g.rows[y][x]
    {
      forall c: Channel
        ensures Component(f.rows[y][x], c) == Component(g.rows[y][x], c)
      {
        assert ScansChannel(d, y, c);
        var k: int :| ScansAt(d, y, k, c);
        ReceivesPixel(d, f, amplitude, y, k, x);
        ReceivesPixel(d, g, amplitude, y, k, x);
      }
      assert Component(f.rows[y][x], Red) == Component(g.rows[y][x], Red);
      assert Component(f.rows[y][x], Green) == Component(g.rows[y][x], Green);
      assert Component(f.rows[y][x], Blue) == Component(g.rows[y][x], Blue);
    }
    forall y | 0 <= y < d.height ensures f.rows[y] == g.rows[y] {
    }
  }

  // ----------------------------------------------------------------------- duration

  /** The sum of a schedule's segment durations. */
  function ScheduleDuration(schedule: seq<Segment>): (total: Checked<Duration>)
    requires forall s :: s in schedule ==> Normal(s.duration)
    ensures total.Exact? ==> Normal(total.value) && Seconds(total.value) == ScheduleSeconds(schedule)
  {
    if schedule == [] then
      ZeroSeconds();
      Exact(Duration(0, 1))
    else
      var total :- ScheduleDuration(schedule[..|schedule| - 1]);
      PlusExact(total, schedule[|schedule| - 1].duration);
      Plus(total, schedule[|schedule| - 1].duration)
  }

  function ScheduleSeconds(schedule: seq<Segment>): real
    requires forall s :: s in schedule ==> Normal(s.duration)
  {
    if schedule == [] then 0.0
    else
      assert Normal(schedule[|schedule| - 1].duration);
      ScheduleSeconds(schedule[..|schedule| - 1]) + Seconds(schedule[|schedule| - 1].duration)
  }

  /** sequentialRgbTransmissionDuration, which knows no frame and adds up no pixels. */
  function TransmissionDuration(d: Descriptor): Checked<Duration>
    requires WellTyped(d) && ValidDescriptor(d)
  {
    SchedulesNormal(d);
    var header :- TotalDuration(VisHeader(d.visCode, 0.8));
    var pre :- ScheduleDuration(d.preImage);
    var first :- ScheduleDuration(d.firstLine);
    var line :- ScheduleDuration(d.line);
    Assemble(header, pre, first, line, d.height - 1)
  }

  /** A header, a pre-image schedule, a first line and further lines. */
  function Assemble(header: Duration, pre: Duration, first: Duration, line: Duration, lines: nat): Checked<Duration>
    requires Normal(header) && Normal(pre) && Normal(first) && Normal(line) && lines < WORD
  {
    PlusExact(header, pre);
    var start :- Plus(header, pre);
    PlusExact(start, first);
    var withFirst :- Plus(start, first);
    TimesExact(line, lines);
    var rest :- Times(line, lines);
    Plus(withFirst, rest)
  }

  lemma AssembledSeconds(header: Duration, pre: Duration, first: Duration, line: Duration, lines: nat)
    requires Normal(header) && Normal(pre) && Normal(first) && Normal(line) && lines < WORD
    requires Assemble(header, pre, first, line, lines).Exact?
    ensures Normal(Assemble(header, pre, first, line, lines).value)
    ensures Seconds(Assemble(header, pre, first, line, lines).value)
         == Seconds(header) + Seconds(pre) + Repeated(Seconds(first), Seconds(line), lines)
  {
    hide Seconds, Plus, Times, Coprime, Representable;
    PlusExact(header, pre);
    var start := Plus(header, pre).value;
    PlusExact(start, first);
    var withFirst := Plus(start, first).value;
    TimesExact(line, lines);
    PlusExact(withFirst, Times(line, lines).value);
    TimesCommutes(Seconds(line), lines as real);
  }

  lemma {:induction false} LengthConcat(a: seq<ToneEvent>, b: seq<ToneEvent>)
    requires ValidEvents(a) && ValidEvents(b)
    ensures Length(a + b) == Length(a) + Length(b)
    decreases |b|
  {
    hide Seconds, Normal;
    if b == [] {
      assert a + b == a;
    } else {
      var c := b[..|b| - 1];
      LengthConcat(a, c);
      assert (a + b)[..|a + b| - 1] == a + c;
    }
  }

  lemma {:induction false} UniformLength(events: seq<ToneEvent>, duration: Duration)
    requires ValidEvents(events) && duration.denominator > 0
    requires forall i :: 0 <= i < |events| ==> events[i].duration == duration
    ensures Length(events) == |events| as real * Seconds(duration)
  {
    hide Seconds, Normal;
    if events != [] {
      UniformLength(events[..|events| - 1], duration);
      OneMore(|events| - 1, Seconds(duration));
    }
  }

  lemma OneMore(n: nat, x: real)
    ensures (n + 1) as real * x == n as real * x + x
  {
  }

  /** The pixels of a scan last as long as the scan. */
  lemma SegmentLength(d: Descriptor, s: Segment, row: seq<Rgb>, amplitude: real)
    requires Ready(d, amplitude) && Playable(d, s) && |row| == d.width
    ensures Length(SegmentEvents(d, s, row, amplitude)) == Seconds(s.duration)
  {
    hide DividedBy, Seconds, Coprime;
    var events := SegmentEvents(d, s, row, amplitude);
    if s.Fixed? {
      assert events[..0] == [] && events == [ToneEvent(s.duration, s.frequency, amplitude)];
    } else {
      UniformLength(events, PixelDuration(d, s));
      PiecesJoin(Seconds(s.duration), d.width);
    }
  }

  lemma PiecesJoin(x: real, n: nat)
    requires n > 0
    ensures n as real * (x / n as real) == x
  {
  }

  lemma {:induction false} ScheduleLength(d: Descriptor, schedule: seq<Segment>, row: seq<Rgb>, amplitude: real)
    requires Ready(d, amplitude) && AllPlayable(d, schedule) && |row| == d.width
    ensures Length(ScheduleEvents(d, schedule, row, amplitude)) == ScheduleSeconds(schedule)
  {
    hide WellTyped, Seconds, SegmentEvents;
    if schedule != [] {
      var prior, last := schedule[..|schedule| - 1], schedule[|schedule| - 1];
      ScheduleLength(d, prior, row, amplitude);
      SegmentLength(d, last, row, amplitude);
      LengthConcat(ScheduleEvents(d, prior, row, amplitude), SegmentEvents(d, last, row, amplitude));
    }
  }

  /** One first part and some equal ones. */
  function Repeated(first: real, each: real, times: nat): real {
    first + times as real * each
  }

  lemma RepeatedOnce(first: real, each: real, times: nat)
    ensures Repeated(first, each, 0) == first
    ensures Repeated(first, each, times + 1) == Repeated(first, each, times) + each
  {
    OneMore(times, each);
  }

  lemma {:induction false} LinesLength(d: Descriptor, frame: Frame, lines: nat, amplitude: real)
    requires Encodable(d, frame, amplitude) && 0 < lines <= d.height
    requires forall s :: s in d.firstLine + d.line ==> Normal(s.duration)
    ensures Length(LinesEvents(d, frame, lines, amplitude))
         == Repeated(ScheduleSeconds(d.firstLine), ScheduleSeconds(d.line), lines - 1)
  {
    hide WellTyped, Normal, ScheduleEvents, ScheduleSeconds, Length, Repeated;
    var prior := LinesEvents(d, frame, lines - 1, amplitude);
    var last := ScheduleEvents(d, LineSchedule(d, lines - 1), frame.rows[lines - 1], amplitude);
    ScheduleLength(d, LineSchedule(d, lines - 1), frame.rows[lines - 1], amplitude);
    LengthConcat(prior, last);
    if lines > 1 {
      LinesLength(d, frame, lines - 1, amplitude);
      RepeatedOnce(ScheduleSeconds(d.firstLine), ScheduleSeconds(d.line), lines - 2);
    } else {
      RepeatedOnce(ScheduleSeconds(d.firstLine), ScheduleSeconds(d.line), 0);
      NothingLength();
    }
  }

  lemma NothingLength()
    ensures Length([]) == 0.0
  {
  }

  /** The independently computed duration is, to the last bit, what the events add up to,
      for every descriptor and frame: neither rounding nor dividing scans into pixels
      loses anything. */
  lemma DurationIsExact(d: Descriptor, frame: Frame, amplitude: real)
    requires Encodable(d, frame, amplitude) && TransmissionDuration(d).Exact?
    ensures Normal(TransmissionDuration(d).value)
    ensures Seconds(TransmissionDuration(d).value) == Length(Encoded(d, frame, amplitude))
    ensures TotalDuration(Encoded(d, frame, amplitude)).Exact? ==>
              TotalDuration(Encoded(d, frame, amplitude)) == TransmissionDuration(d)
  {
    hide WellTyped, Length, TransmissionDuration, LinesEvents, Encoded, Seconds, TotalDuration, ScheduleSeconds;
    var opening, lines := Opening(d, amplitude), LinesEvents(d, frame, d.height, amplitude);
    SchedulesNormal(d);
    OpeningLength(d, amplitude);
    LinesLength(d, frame, d.height, amplitude);
    LengthConcat(opening, lines);
    TransmissionSeconds(d);
    assert Encoded(d, frame, amplitude) == opening + lines by {
      EncodedParts(d, frame, amplitude);
    }
    var total := TotalDuration(Encoded(d, frame, amplitude));
    if total.Exact? {
      EqualSeconds(total.value, TransmissionDuration(d).value);
    }
  }

  lemma EncodedParts(d: Descriptor, frame: Frame, amplitude: real)
    requires Encodable(d, frame, amplitude)
    ensures Encoded(d, frame, amplitude) == Opening(d, amplitude) + LinesEvents(d, frame, d.height, amplitude)
  {
  }

  lemma OpeningLength(d: Descriptor, amplitude: real)
    requires Ready(d, amplitude) && AllPlayable(d, d.preImage)
    requires forall s :: s in d.preImage ==> Normal(s.duration)
    ensures Length(Opening(d, amplitude)) == Length(VisHeader(d.visCode, 0.8)) + ScheduleSeconds(d.preImage)
  {
    hide WellTyped, Length, ScheduleEvents, VisHeader;
    ScheduleLength(d, d.preImage, Blank(d.width), amplitude);
    LengthConcat(VisHeader(d.visCode, amplitude), ScheduleEvents(d, d.preImage, Blank(d.width), amplitude));
    SameLength(VisHeader(d.visCode, amplitude), VisHeader(d.visCode, 0.8)) by {
      HeaderDurations(d.visCode, amplitude);
    }
  }

  lemma {:induction false} SameLength(a: seq<ToneEvent>, b: seq<ToneEvent>)
    requires ValidEvents(a) && ValidEvents(b) && |a| == |b|
    requires forall i :: 0 <= i < |a| ==> a[i].duration == b[i].duration
    ensures Length(a) == Length(b)
  {
    if a != [] {
      SameLength(a[..|a| - 1], b[..|b| - 1]);
    }
  }

  /** The header's durations do not depend on its amplitude. */
  lemma HeaderDurations(code: bv8, amplitude: real)
    requires 0.0 <= amplitude <= 1.0
    ensures forall i :: 0 <= i < 13 ==> VisHeader(code, amplitude)[i].duration == VisHeader(code, 0.8)[i].duration
  {
    hide Micro, VisBits;
  }

  lemma TransmissionSeconds(d: Descriptor)
    requires WellTyped(d) && ValidDescriptor(d) && TransmissionDuration(d).Exact?
    requires forall s :: s in d.preImage || s in d.firstLine || s in d.line ==> Normal(s.duration)
    ensures Normal(TransmissionDuration(d).value)
    ensures Seconds(TransmissionDuration(d).value)
         == Length(VisHeader(d.visCode, 0.8)) + ScheduleSeconds(d.preImage)
            + Repeated(ScheduleSeconds(d.firstLine), ScheduleSeconds(d.line), d.height - 1)
  {
    hide Seconds, Assemble, ScheduleDuration, ScheduleSeconds, VisHeader, TotalDuration, Coprime;
    AssembledSeconds(TotalDuration(VisHeader(d.visCode, 0.8)).value, ScheduleDuration(d.preImage).value,
                     ScheduleDuration(d.firstLine).value, ScheduleDuration(d.line).value, d.height - 1);
  }

  lemma TimesCommutes(x: real, y: real)
    ensures x * y == y * x
  {
  }
}
