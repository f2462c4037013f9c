/** The finite sample source over a tone renderer (src/app/rendered_transmit.cpp) and the
    factory that checks a transmission before rendering it. */
module RenderedSource {
  import opened Arithmetic
  import opened Timing
  import opened Tone
  import opened ToneRenderer
  import OfflineTx
  import WavWriter

  const MAXIMUM_FRAMES: nat := 28_800_000

  /** Every sample times the gain. */
  function Amplified(samples: seq<Sample>, gain: real): (a: seq<Sample>)
    ensures |a| == |samples|
  {
    seq(|samples|, i requires 0 <= i < |samples| => samples[i] * gain)
  }

  class ToneEventSampleSource {
    const renderer: ToneRenderer
    const gain: real
    var isCancelled: bool

    predicate Valid()
      reads this, renderer
    {
      renderer.Valid()
    }

    /** All that the source will ever hand out. */
    function Samples(): seq<Sample>
      requires |renderer.eventEndFrames| == |renderer.events| > 0
    {
      Amplified(Reference(renderer.oscillator, renderer.events, renderer.eventEndFrames), gain)
    }

    constructor (renderer: ToneRenderer, gain: real)
      requires renderer.Valid()
      ensures Valid() && this.renderer == renderer && this.gain == gain && !isCancelled
    {
      this.renderer, this.gain, isCancelled := renderer, gain, false;
    }

    predicate IsExhausted()
      requires Valid()
      reads this, renderer
    {
      isCancelled || renderer.Finished()
    }

    /** Continues where the previous read stopped; a cancelled source hands out nothing. */
    method Read(destination: array<Sample>) returns (count: nat)
      requires Valid()
      modifies renderer, destination
      ensures Valid() && count <= destination.Length
      ensures count == if isCancelled then 0 else Min(destination.Length, |Samples()| - old(renderer.frameIndex))
      ensures renderer.frameIndex == old(renderer.frameIndex) + count
      ensures destination[..count] == Samples()[old(renderer.frameIndex)..renderer.frameIndex]
      ensures destination[count..] == old(destination[count..])
      ensures !isCancelled && count < destination.Length ==> IsExhausted()
    {
      hide PhaseAt, SampleAt;
      if isCancelled {
        return 0;
      }
      count := renderer.Render(destination);
      ghost var rendered := destination[..];
      for i := 0 to count
        modifies destination
        invariant forall k :: 0 <= k < i ==> destination[k] == rendered[k] * gain
        invariant forall k :: i <= k < destination.Length ==> destination[k] == rendered[k]
      {
        destination[i] := destination[i] * gain;
      }
      assert rendered[..count] == Reference(renderer.oscillator, renderer.events, renderer.eventEndFrames)[old(renderer.frameIndex)..renderer.frameIndex];
      forall k | 0 <= k < count
        ensures destination[k] == Samples()[old(renderer.frameIndex) + k]
      {
        assert rendered[k] == rendered[..count][k];
      }
    }

    method Cancel()
      modifies this
      ensures isCancelled
    {
      isCancelled := true;
    }
  }

  // ------------------------------------------------------------------------ factory

  datatype Rejection = UnsupportedRate | BadGain | CanClip | DurationMismatch | FrameLimit | ConstructionError

  datatype SourceResult = Created(source: ToneEventSampleSource) | Rejected(reason: Rejection)

  predicate TooLoud(event: ToneEvent, gain: real) {
    event.amplitude * gain > 1.0
  }

  predicate Clips(events: seq<ToneEvent>, gain: real) {
    exists i :: 0 <= i < |events| && TooLoud(events[i], gain)
  }

  /** An event clips before the sum of the durations overflows. */
  predicate ClipsFirst(events: seq<ToneEvent>, gain: real)
    requires ValidEvents(events)
  {
    exists i :: 0 <= i < |events| && TooLoud(events[i], gain) && TotalDuration(events[..i]).Exact?
  }

  /** Adds the event durations and checks the gain against every amplitude. */
  method CheckEvents(events: seq<ToneEvent>, gain: real) returns (clips: bool, total: Checked<Duration>)
    requires ValidEvents(events)
    ensures clips <==> ClipsFirst(events, gain)
    ensures clips ==> Clips(events, gain)
    ensures !clips && total.Exact? ==> !Clips(events, gain)
    ensures !clips ==> total == TotalDuration(events)
  {
    hide Plus, TotalDuration, Length, Ratio, Coprime, TooLoud;
    clips, total := false, Exact(Duration(0, 1));
    NothingTotal(events);
    for i := 0 to |events|
      invariant total.Exact? && total == TotalDuration(events[..i])
      invariant forall k :: 0 <= k < i ==> !TooLoud(events[k], gain)
    {
      if TooLoud(events[i], gain) {
        return true, total;
      }
      PrefixDuration(events, i);
      total := Plus(total.value, events[i].duration);
      if !total.Exact? {
        RestFails(events, i + 1);
        PrefixesFail(events, i + 1);
        return;
      }
    }
    assert events[..|events|] == events;
  }

  lemma PrefixesFail(events: seq<ToneEvent>, i: nat)
    requires ValidEvents(events) && i <= |events| && !TotalDuration(events[..i]).Exact?
    ensures forall j :: i <= j < |events| ==> !TotalDuration(events[..j]).Exact?
  {
    hide TotalDuration;
    forall j | i <= j < |events| ensures !TotalDuration(events[..j]).Exact? {
      assert events[..j][..i] == events[..i];
      RestFails(events[..j], i);
    }
  }

  method CreateSource(t: OfflineTx.Transmission, rate: nat, gain: real,
                      oscillator: Oscillator) returns (result: SourceResult)
    requires ValidEvents(t.events)
    ensures result == Rejected(UnsupportedRate) <==> rate !in WavWriter.SUPPORTED_RATES
    ensures result == Rejected(BadGain) <==> rate in WavWriter.SUPPORTED_RATES && gain <= 0.0
    ensures result == Rejected(CanClip) <==> rate in WavWriter.SUPPORTED_RATES && gain > 0.0 && ClipsFirst(t.events, gain)
    // a transmission whose events add up to its duration is not rejected for that
    ensures result == Rejected(DurationMismatch) <==>
              && rate in WavWriter.SUPPORTED_RATES && gain > 0.0 && !ClipsFirst(t.events, gain)
              && TotalDuration(t.events).Exact? && TotalDuration(t.events) != Exact(t.duration)
    ensures result == Rejected(ConstructionError) <==>
              && rate in WavWriter.SUPPORTED_RATES && gain > 0.0 && !ClipsFirst(t.events, gain)
              && (!TotalDuration(t.events).Exact? || (TotalDuration(t.events) == Exact(t.duration) && !Buildable(t.events, rate)))
    ensures result == Rejected(FrameLimit) <==>
              && rate in WavWriter.SUPPORTED_RATES && gain > 0.0 && !ClipsFirst(t.events, gain)
              && TotalDuration(t.events) == Exact(t.duration) && Buildable(t.events, rate)
              && Boundary(t.events, rate) > MAXIMUM_FRAMES
    ensures result.Created? ==>
              var s := result.source;
              && s.Valid() && !s.isCancelled && s.renderer.frameIndex == 0 && s.gain == gain > 0.0
              && s.renderer.oscillator == oscillator && s.renderer.events == t.events
              && Renderable(t.events, rate) && IsTable(s.renderer.eventEndFrames, t.events, rate)
              && TotalDuration(t.events) == Exact(t.duration) && !Clips(t.events, gain)
              && 0 < |s.Samples()| == Boundary(t.events, rate) <= MAXIMUM_FRAMES
  {
    hide TotalDuration, Boundary, PhaseAt, SampleAt, ValidEvents;
    if rate !in WavWriter.SUPPORTED_RATES {
      return Rejected(UnsupportedRate);
    }
    if gain <= 0.0 {
      return Rejected(BadGain);
    }
    var clips, total := CheckEvents(t.events, gain);
    if clips {
      return Rejected(CanClip);
    }
    if !total.Exact? {
      return Rejected(ConstructionError);
    }
    if total.value != t.duration {
      return Rejected(DurationMismatch);
    }
    var table := BuildTable(t.events, rate);
    if !table.Exact? {
      return Rejected(ConstructionError);
    }
    TableNonDecreasing(table.value, t.events, rate);
    assert t.events[..|t.events|] == t.events;
    var renderer := new ToneRenderer(oscillator, t.events, table.value);
    if renderer.FrameCount() == 0 || renderer.FrameCount() > MAXIMUM_FRAMES {
      return Rejected(FrameLimit);
    }
    var source := new ToneEventSampleSource(renderer, gain);
    result := Created(source);
  }
}
