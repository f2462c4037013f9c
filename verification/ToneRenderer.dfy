/** The drift-free scheduler (src/core/timing.cpp) and the pull renderer
    (src/core/tone_renderer.cpp), against a one-shot reference that knows neither blocks
    nor cursors. The oscillator is an arbitrary phase step and an arbitrary emit function. */
module ToneRenderer {
  import opened Arithmetic
  import opened Timing
  import opened Tone
  import TransmitLog

  type Sample = TransmitLog.Sample

  /** The exact length of an event list in seconds. */
  function Length(events: seq<ToneEvent>): real
    requires ValidEvents(events)
  {
    if events == [] then 0.0 else Length(events[..|events| - 1]) + Seconds(events[|events| - 1].duration)
  }

  /** The exact number of whole frames in an event list. */
  function Boundary(events: seq<ToneEvent>, rate: nat): int
    requires ValidEvents(events)
  {
    (Length(events) * rate as real).Floor
  }

  /** The scheduler's running sum of an event list. */
  function TotalDuration(events: seq<ToneEvent>): Checked<Duration>
    requires ValidEvents(events)
    ensures TotalDuration(events).Exact? ==>
              Normal(TotalDuration(events).value) && Seconds(TotalDuration(events).value) == Length(events)
  {
    if events == [] then
      ZeroSeconds();
      Exact(Duration(0, 1))
    else
      var total :- TotalDuration(events[..|events| - 1]);
      PlusExact(total, events[|events| - 1].duration);
      Plus(total, events[|events| - 1].duration)
  }

  lemma ZeroSeconds()
    ensures Normal(Duration(0, 1)) && Seconds(Duration(0, 1)) == 0.0
  {
    assert Gcd(0, 1) == Gcd(1, 0);
  }

  class SampleBoundaryScheduler {
    const sampleRate: nat
    var elapsed: Duration
    var frameBoundary: nat

    constructor (sampleRate: nat)
      requires sampleRate > 0
      ensures this.sampleRate == sampleRate && Normal(elapsed) && Seconds(elapsed) == 0.0 && frameBoundary == 0
      ensures elapsed == Duration(0, 1)
    {
      ZeroSeconds();
      this.sampleRate, elapsed, frameBoundary := sampleRate, Duration(0, 1), 0;
    }

    /** Adds exactly and rounds only the running sum. If the boundary does not fit, the
        duration has been added already. */
    method Advance(duration: Duration) returns (boundary: Checked<nat>)
      requires Normal(elapsed) && Normal(duration) && sampleRate > 0
      modifies this
      ensures Normal(elapsed)
      ensures boundary.Exact? ==>
                && Plus(old(elapsed), duration) == Exact(elapsed)
                && Seconds(elapsed) == old(Seconds(elapsed)) + Seconds(duration)
                && SampleCount(elapsed, sampleRate) == boundary
                && frameBoundary == boundary.value == (Seconds(elapsed) * sampleRate as real).Floor
      ensures !boundary.Exact? ==>
                && boundary.Overflow? && frameBoundary == old(frameBoundary)
                && match Plus(old(elapsed), duration) {
                  case Exact(sum) => elapsed == sum && SampleCount(sum, sampleRate).Overflow?
                  case _ => elapsed == old(elapsed)
                }
    {
      hide Plus, SampleCount, Ratio, Coprime;
      PlusExact(elapsed, duration);
      var sum := Plus(elapsed, duration);
      if !sum.Exact? {
        return Overflow;
      }
      elapsed := sum.value;
      SampleCountExact(elapsed, sampleRate);
      boundary := SampleCount(elapsed, sampleRate);
      if boundary.Exact? {
        frameBoundary := boundary.value;
      }
    }
  }

  // --------------------------------------------------------------- boundary table

  /** Entry i is where event i ends. */
  predicate IsTable(table: seq<nat>, events: seq<ToneEvent>, rate: nat)
    requires ValidEvents(events)
  {
    |table| == |events| && forall i :: 0 <= i < |events| ==> table[i] == Boundary(events[..i + 1], rate)
  }

  predicate Renderable(events: seq<ToneEvent>, rate: nat)
    requires ValidEvents(events)
  {
    && events != [] && rate > 0 && Boundary(events, rate) > 0
    && forall i :: 0 <= i < |events| ==> events[i].frequency < rate as real / 2.0
  }

  predicate NonDecreasing(table: seq<nat>) {
    forall i, j :: 0 <= i <= j < |table| ==> table[i] <= table[j]
  }

  lemma SecondsPositive(d: Duration)
    requires d.denominator > 0
    ensures Seconds(d) >= 0.0
  {
    PositiveRatio(d.numerator as real, d.denominator as real);
  }

  lemma PositiveRatio(n: real, d: real)
    requires n >= 0.0 && d > 0.0
    ensures n / d >= 0.0
  {
  }

  lemma ScaledFloor(x: real, y: real, rate: nat)
    requires x <= y
    ensures (x * rate as real).Floor <= (y * rate as real).Floor
  {
    ScaledOrder(x, y, rate as real);
  }

  lemma ScaledOrder(x: real, y: real, factor: real)
    requires x <= y && factor >= 0.0
    ensures x * factor <= y * factor
  {
  }

  /** Longer prefixes end no earlier, and no prefix ends before the start. */
  lemma {:induction false} BoundaryGrows(events: seq<ToneEvent>, rate: nat, i: nat, j: nat)
    requires ValidEvents(events) && i <= j <= |events|
    ensures Length(events[..i]) <= Length(events[..j])
    ensures Boundary(events[..i], rate) <= Boundary(events[..j], rate)
    decreases j - i
  {
    if i < j {
      BoundaryGrows(events, rate, i, j - 1);
      assert events[..j][..j - 1] == events[..j - 1];
      assert ValidEvent(events[j - 1]);
      SecondsPositive(events[j - 1].duration);
      ScaledFloor(Length(events[..j - 1]), Length(events[..j]), rate);
    }
  }

  lemma TableNonDecreasing(table: seq<nat>, events: seq<ToneEvent>, rate: nat)
    requires ValidEvents(events) && IsTable(table, events, rate)
    ensures NonDecreasing(table)
  {
    forall i, j | 0 <= i <= j < |table| ensures table[i] <= table[j] {
      BoundaryGrows(events, rate, i + 1, j + 1);
    }
  }

  /** The frame lies in the event's exact interval, both ends rounded down. */
  predicate Sounds(events: seq<ToneEvent>, rate: nat, i: nat, frame: nat)
    requires ValidEvents(events) && i < |events|
  {
    Boundary(events[..i], rate) <= frame < Boundary(events[..i + 1], rate)
  }

  /** Event i owns exactly the frames from the rounded-down exact start to the
      rounded-down exact end of its interval. */
  lemma OwnsExactly(table: seq<nat>, events: seq<ToneEvent>, rate: nat, i: nat, frame: nat)
    requires ValidEvents(events) && IsTable(table, events, rate) && i < |events|
    ensures Owner(table, frame) == i <==> Sounds(events, rate, i, frame)
  {
    hide Boundary;
    TableNonDecreasing(table, events, rate);
    StartsAtZero(events, rate);
    var k := Owner(table, frame);
    if i > 0 {
      assert table[i - 1] == Boundary(events[..i], rate);
    }
    assert table[i] == Boundary(events[..i + 1], rate);
  }

  lemma StartsAtZero(events: seq<ToneEvent>, rate: nat)
    requires ValidEvents(events)
    ensures Boundary(events[..0], rate) == 0
  {
  }

  /** A partial sum or its boundary does not fit 64 bits. */
  predicate PrefixOverflows(events: seq<ToneEvent>, rate: nat, i: nat)
    requires ValidEvents(events) && i <= |events|
  {
    match TotalDuration(events[..i])
    case Exact(sum) => SampleCount(sum, rate).Overflow?
    case _ => true
  }

  /** A renderer can be made for the events. */
  predicate Buildable(events: seq<ToneEvent>, rate: nat)
    requires ValidEvents(events)
  {
    Renderable(events, rate) && forall i :: 0 < i <= |events| ==> !PrefixOverflows(events, rate, i)
  }

  predicate OverflowsFirst(events: seq<ToneEvent>, rate: nat, i: nat)
    requires ValidEvents(events) && i <= |events|
  {
    PrefixOverflows(events, rate, i) && forall j :: 0 <= j < i ==> events[j].frequency < rate as real / 2.0
  }

  /** The constructor's loop. */
  method BuildTable(events: seq<ToneEvent>, rate: nat) returns (result: Checked<seq<nat>>)
    requires ValidEvents(events)
    ensures result.Exact? <==> Buildable(events, rate)
    ensures result.Exact? ==> IsTable(result.value, events, rate)
    // an overflow is reported unless an earlier event is above the Nyquist frequency
    ensures result.Overflow? <==> rate > 0 && exists i :: 0 < i <= |events| && OverflowsFirst(events, rate, i)
  {
    hide Plus, SampleCount, Normal, Seconds, Length, TotalDuration, Boundary;
    if events == [] || rate == 0 {
      return InvalidArgument;
    }
    var scheduler := new SampleBoundaryScheduler(rate);
    NothingTotal(events);
    var table: seq<nat> := [];
    for i := 0 to |events|
      invariant scheduler.sampleRate == rate && Normal(scheduler.elapsed)
      invariant TotalDuration(events[..i]) == Exact(scheduler.elapsed)
      invariant |table| == i && forall j :: 0 <= j < i ==> table[j] == Boundary(events[..j + 1], rate)
      invariant forall j :: 0 <= j < i ==> events[j].frequency < rate as real / 2.0
      invariant forall j :: 0 < j <= i ==> !PrefixOverflows(events, rate, j)
    {
      if events[i].frequency >= rate as real / 2.0 {
        return InvalidArgument;
      }
      PrefixDuration(events, i);
      assert Normal(events[i].duration) by {
        assert ValidEvent(events[i]);
      }
      var boundary := scheduler.Advance(events[i].duration);
      if !boundary.Exact? {
        assert OverflowsFirst(events, rate, i + 1);
        return Overflow;
      }
      assert !PrefixOverflows(events, rate, i + 1);
      TotalBoundary(events[..i + 1], rate);
      table := table + [boundary.value];
    }
    assert events[..|events|] == events;
    if table[|table| - 1] == 0 {
      return InvalidArgument;
    }
    result := Exact(table);
  }

  lemma NothingTotal(events: seq<ToneEvent>)
    requires ValidEvents(events)
    ensures TotalDuration(events[..0]) == Exact(Duration(0, 1))
  {
  }

  lemma TotalBoundary(events: seq<ToneEvent>, rate: nat)
    requires ValidEvents(events)
    ensures var total := TotalDuration(events);
            total.Exact? ==> total.value.denominator > 0 && Boundary(events, rate) == (Seconds(total.value) * rate as real).Floor
  {
    hide TotalDuration, Length, Ratio, Coprime, Plus;
  }

  lemma PrefixDuration(events: seq<ToneEvent>, i: nat)
    requires ValidEvents(events) && i < |events|
    ensures TotalDuration(events[..i + 1]) ==
            match TotalDuration(events[..i]) {
              case Exact(sum) => Plus(sum, events[i].duration)
              case other => other
            }
  {
    hide Plus;
    assert events[..i + 1][..i] == events[..i];
  }

  /** An overflow stays one. */
  lemma {:induction false} RestFails(events: seq<ToneEvent>, i: nat)
    requires ValidEvents(events) && i <= |events| && !TotalDuration(events[..i]).Exact?
    ensures TotalDuration(events) == TotalDuration(events[..i])
    decreases |events| - i
  {
    hide Plus;
    if i < |events| {
      PrefixDuration(events, i);
      RestFails(events, i + 1);
    } else {
      assert events[..i] == events;
    }
  }

  // ---------------------------------------------------------------------- reference

  /** What the renderer needs of a sine: the next phase and the sample at a phase. */
  datatype Oscillator = Oscillator(advance: (real, real) -> real, emit: (real, real) -> Sample)

  /** The first event that ends after a frame. */
  function Owner(table: seq<nat>, frame: nat): (i: nat)
    ensures i <= |table|
    ensures forall j :: 0 <= j < i ==> table[j] <= frame
    ensures i < |table| ==> frame < table[i]
  {
    if table == [] then 0
    else
      var i := Owner(table[..|table| - 1], frame);
      if i < |table| - 1 then i else if frame < table[|table| - 1] then |table| - 1 else |table|
  }

  /** The phase carried into a frame from the very first one. */
  function PhaseAt(o: Oscillator, events: seq<ToneEvent>, table: seq<nat>, frame: nat): real
    requires |table| == |events| > 0 && frame <= table[|table| - 1]
  {
    if frame == 0 then 0.0
    else o.advance(PhaseAt(o, events, table, frame - 1), events[OwnerBelow(table, frame - 1)].frequency)
  }

  function OwnerBelow(table: seq<nat>, frame: nat): (i: nat)
    requires |table| > 0 && frame < table[|table| - 1]
    ensures i < |table| && i == Owner(table, frame)
  {
    Owner(table, frame)
  }

  function SampleAt(o: Oscillator, events: seq<ToneEvent>, table: seq<nat>, frame: nat): Sample
    requires |table| == |events| > 0 && frame < table[|table| - 1]
  {
    o.emit(PhaseAt(o, events, table, frame), events[OwnerBelow(table, frame)].amplitude)
  }

  /** The whole rendering at once. */
  function Reference(o: Oscillator, events: seq<ToneEvent>, table: seq<nat>): (samples: seq<Sample>)
    requires |table| == |events| > 0
    ensures |samples| == table[|table| - 1]
  {
    seq(table[|table| - 1], frame requires 0 <= frame < table[|table| - 1] => SampleAt(o, events, table, frame))
  }

  class ToneRenderer {
    const oscillator: Oscillator
    const events: seq<ToneEvent>
    const eventEndFrames: seq<nat>
    var eventIndex: nat
    var frameIndex: nat
    var phase: real

    predicate Valid()
      reads this
    {
      && |eventEndFrames| == |events| > 0 && NonDecreasing(eventEndFrames) && frameIndex <= FrameCount()
      && eventIndex <= |events|
      && (forall j :: 0 <= j < eventIndex ==> eventEndFrames[j] <= frameIndex)
      && phase == PhaseAt(oscillator, events, eventEndFrames, frameIndex)
    }

    function FrameCount(): nat
      requires |eventEndFrames| == |events| > 0
    {
      eventEndFrames[|eventEndFrames| - 1]
    }

    predicate Finished()
      requires |eventEndFrames| == |events| > 0
      reads this
    {
      frameIndex >= FrameCount()
    }

    constructor (oscillator: Oscillator, events: seq<ToneEvent>, table: seq<nat>)
      requires |table| == |events| > 0 && NonDecreasing(table)
      ensures Valid() && frameIndex == 0
      ensures this.oscillator == oscillator && this.events == events && eventEndFrames == table
    {
      this.oscillator, this.events, eventEndFrames := oscillator, events, table;
      eventIndex, frameIndex, phase := 0, 0, 0.0;
    }

    /** Fills as much of the output as there are frames left, continuing exactly where the
        previous call stopped. */
    method Render(output: array<Sample>) returns (written: nat)
      requires Valid()
      modifies this, output
      ensures Valid()
      ensures written == Min(output.Length, FrameCount() - old(frameIndex))
      ensures frameIndex == old(frameIndex) + written
      ensures output[..written] == Reference(oscillator, events, eventEndFrames)[old(frameIndex)..frameIndex]
      ensures output[written..] == old(output[written..])
    {
      hide PhaseAt, SampleAt;
      written := 0;
      while written < output.Length && eventIndex < |events|
        invariant Valid() && written <= output.Length && frameIndex == old(frameIndex) + written
        invariant forall k :: 0 <= k < written ==> output[k] == SampleAt(oscillator, events, eventEndFrames, old(frameIndex) + k)
        invariant output[written..] == old(output[written..])
        decreases output.Length - written
      {
        SkipFinishedEvents();
        if eventIndex == |events| {
          break;
        }
        output[written] := NextSample();
        written := written + 1;
      }
    }

    /** The sample of the next frame, which event `eventIndex` owns. */
    method NextSample() returns (sample: Sample)
      requires Valid() && eventIndex < |events| && frameIndex < FrameCount() && eventIndex == Owner(eventEndFrames, frameIndex)
      modifies this`phase, this`frameIndex
      ensures Valid() && frameIndex == old(frameIndex) + 1
      ensures sample == SampleAt(oscillator, events, eventEndFrames, old(frameIndex))
    {
      hide PhaseAt;
      sample := oscillator.emit(phase, events[eventIndex].amplitude);
      phase := oscillator.advance(phase, events[eventIndex].frequency);
      PhaseStep();
      frameIndex := frameIndex + 1;
    }

    /** Moves to the event that owns the next frame. */
    method SkipFinishedEvents()
      requires Valid()
      modifies this`eventIndex
      ensures Valid()
      ensures eventIndex < |events| ==> frameIndex < FrameCount() && eventIndex == Owner(eventEndFrames, frameIndex)
      ensures eventIndex == |events| ==> frameIndex == FrameCount()
    {
      hide PhaseAt;
      while eventIndex < |events| && frameIndex >= eventEndFrames[eventIndex]
        invariant Valid()
      {
        eventIndex := eventIndex + 1;
      }
      FirstIsOwner();
    }

    lemma FirstIsOwner()
      requires Valid() && (eventIndex < |events| ==> frameIndex < eventEndFrames[eventIndex])
      ensures eventIndex == Owner(eventEndFrames, frameIndex)
    {
      var i := Owner(eventEndFrames, frameIndex);
    }

    lemma PhaseStep()
      requires |eventEndFrames| == |events| > 0 && frameIndex < FrameCount()
      ensures PhaseAt(oscillator, events, eventEndFrames, frameIndex + 1)
           == oscillator.advance(PhaseAt(oscillator, events, eventEndFrames, frameIndex),
                                 events[OwnerBelow(eventEndFrames, frameIndex)].frequency)
    {
    }
  }

  // ------------------------------------------------------------- block independence

  /** One call with an output of this size, from a position in the reference. */
  function Block(reference: seq<Sample>, position: nat, size: nat): seq<Sample>
    requires position <= |reference|
  {
    reference[position..position + Min(size, |reference| - position)]
  }

  /** Several calls in a row. */
  function Blocks(reference: seq<Sample>, position: nat, sizes: seq<nat>): seq<Sample>
    requires position <= |reference|
    decreases |sizes|
  {
    if sizes == [] then []
    else
      var block := Block(reference, position, sizes[0]);
      block + Blocks(reference, position + |block|, sizes[1..])
  }

  function Sum(sizes: seq<nat>): nat {
    if sizes == [] then 0 else sizes[0] + Sum(sizes[1..])
  }

  /** However the output is cut into blocks, the blocks are the reference from the start,
      up to the total size asked for. */
  lemma {:induction false} BlocksAreReference(reference: seq<Sample>, position: nat, sizes: seq<nat>)
    requires position <= |reference|
    ensures Blocks(reference, position, sizes) == reference[position..position + Min(Sum(sizes), |reference| - position)]
    decreases |sizes|
  {
    if sizes != [] {
      var block := Block(reference, position, sizes[0]);
      BlocksAreReference(reference, position + |block|, sizes[1..]);
    }
  }

  lemma SumNext(sizes: seq<nat>, i: nat)
    requires i < |sizes|
    ensures Sum(sizes[..i + 1]) == Sum(sizes[..i]) + sizes[i]
  {
    if i > 0 {
      SumNext(sizes[1..], i - 1);
      assert sizes[..i + 1][1..] == sizes[1..][..i] && sizes[..i][1..] == sizes[1..][..i - 1];
    }
  }

  /** Calls of Render with outputs of any sizes, one after the other: together they produce
      the same samples as a single call. */
  method RenderBlocks(renderer: ToneRenderer, sizes: seq<nat>) returns (output: seq<Sample>)
    requires renderer.Valid()
    modifies renderer
    ensures renderer.Valid()
    ensures var reference := Reference(renderer.oscillator, renderer.events, renderer.eventEndFrames);
            && renderer.frameIndex ==
               old(renderer.frameIndex) + Min(Sum(sizes), renderer.FrameCount() - old(renderer.frameIndex))
            && output == Blocks(reference, old(renderer.frameIndex), sizes)
            && output == reference[old(renderer.frameIndex)..renderer.frameIndex]
  {
    hide Reference, PhaseAt, Sum;
    ghost var reference := Reference(renderer.oscillator, renderer.events, renderer.eventEndFrames);
    ghost var start := renderer.frameIndex;
    output := [];
    NoSizes(sizes);
    for i := 0 to |sizes|
      invariant renderer.Valid() && start <= renderer.frameIndex
      invariant renderer.frameIndex == start + Min(Sum(sizes[..i]), renderer.FrameCount() - start)
      invariant output == reference[start..renderer.frameIndex]
    {
      SumNext(sizes, i);
      var block := new Sample[sizes[i]];
      ghost var position := renderer.frameIndex;
      var written := renderer.Render(block);
      assert reference[start..position] + reference[position..renderer.frameIndex] == reference[start..renderer.frameIndex];
      output := output + block[..written];
    }
    BlocksAreReference(reference, start, sizes);
  }

  lemma NoSizes(sizes: seq<nat>)
    ensures Sum(sizes[..0]) == 0 && sizes[..|sizes|] == sizes
  {
  }

  /** A built table belongs to a renderer that sends each event its own frames, carries the
      phase through, and ends without drift at the exact total rounded down. */
  lemma RendersExactly(o: Oscillator, events: seq<ToneEvent>, rate: nat, table: seq<nat>, sizes: seq<nat>)
    requires ValidEvents(events) && Renderable(events, rate) && IsTable(table, events, rate)
    ensures |Reference(o, events, table)| == Boundary(events, rate)
    ensures Sum(sizes) >= Boundary(events, rate) ==>
              Blocks(Reference(o, events, table), 0, sizes) == Reference(o, events, table)
    ensures forall frame, i :: 0 <= frame < Boundary(events, rate) && 0 <= i < |events| && Sounds(events, rate, i, frame) ==>
                                 Reference(o, events, table)[frame] == o.emit(PhaseAt(o, events, table, frame), events[i].amplitude)
  {
    hide Boundary;
    assert events[..|events|] == events;
    var reference := Reference(o, events, table);
    BlocksAreReference(reference, 0, sizes);
    assert reference[0..0 + |reference|] == reference;
    forall frame, i | 0 <= frame < Boundary(events, rate) && 0 <= i < |events| && Sounds(events, rate, i, frame)
      ensures reference[frame] == o.emit(PhaseAt(o, events, table, frame), events[i].amplitude)
    {
      OwnsExactly(table, events, rate, i, frame);
    }
  }
}
