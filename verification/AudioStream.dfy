/** AudioStream (src/audio/audio_stream.cpp): the device callback with its channel mapping
    and scratch-sized chunks, and the control thread's sample operations.
    A callback and a control-thread operation are single steps with respect to each other. */
module AudioStream {
  import opened Arithmetic
  import opened SampleRing
  import opened AudioFlow

  datatype PlaybackMapping = SelectedChannel | DuplicateAllChannels

  /** How frames are laid out in a device buffer. */
  datatype Layout = Layout(channels: nat, selected: nat, mapping: PlaybackMapping)

  predicate ValidLayout(l: Layout) {
    l.selected < l.channels
  }

  function Cell(frame: nat, channel: nat, channels: nat): nat {
    frame * channels + channel
  }

  /** A whole frame fits before every later one. */
  lemma {:induction false} FrameBelow(f: nat, g: nat, channels: nat)
    requires f < g
    ensures f * channels + channels <= g * channels
    decreases g - f
  {
    assert (f + 1) * channels == f * channels + channels;
    if f + 1 < g {
      FrameBelow(f + 1, g, channels);
    }
  }

  lemma CellsDistinct(f: nat, c: nat, g: nat, d: nat, channels: nat)
    requires c < channels && d < channels && (f, c) != (g, d)
    ensures Cell(f, c, channels) != Cell(g, d, channels)
  {
    if f < g {
      FrameBelow(f, g, channels);
    } else if g < f {
      FrameBelow(g, f, channels);
    }
  }

  lemma CellBound(frame: nat, channel: nat, frames: nat, channels: nat)
    requires frame < frames && channel < channels
    ensures Cell(frame, channel, channels) < frames * channels
  {
    FrameBelow(frame, frames, channels);
  }

  predicate Carries(l: Layout, channel: nat) {
    l.mapping.DuplicateAllChannels? || channel == l.selected
  }

  /** A buffer shows a signal: its frames on the carrying channels, zeros elsewhere and
      in all later frames. */
  predicate Shows(buffer: seq<Sample>, signal: seq<Sample>, frames: nat, l: Layout) {
    forall f, c :: 0 <= f < frames && 0 <= c < l.channels && Cell(f, c, l.channels) < |buffer| ==>
                     buffer[Cell(f, c, l.channels)] == if f < |signal| && Carries(l, c) then signal[f] else 0.0
  }

  /** What the selected channel of an input buffer holds. */
  function SelectedInput(buffer: seq<Sample>, frames: nat, l: Layout): (s: seq<Sample>) {
    seq(frames, f requires 0 <= f => ReadCell(buffer, Cell(f, l.selected, l.channels)))
  }

  function ReadCell(buffer: seq<Sample>, cell: nat): Sample {
    if cell < |buffer| then buffer[cell] else 0.0
  }

  method ZeroFill(output: array<Sample>, frames: nat, l: Layout)
    requires frames * l.channels <= output.Length
    modifies output
    ensures Shows(output[..], [], frames, l)
  {
    hide Cell;
    for frame := 0 to frames
      invariant Shows(output[..], [], frame, l)
    {
      for channel := 0 to l.channels
        invariant Shows(output[..], [], frame, l)
        invariant forall c :: 0 <= c < channel && Cell(frame, c, l.channels) < output.Length ==> output[Cell(frame, c, l.channels)] == 0.0
      {
        CellBound(frame, channel, frames, l.channels);
        ghost var before := output[..];
        output[Cell(frame, channel, l.channels)] := 0.0;
        forall f, c | 0 <= f < frame && 0 <= c < l.channels && Cell(f, c, l.channels) < output.Length
          ensures output[Cell(f, c, l.channels)] == before[Cell(f, c, l.channels)]
        {
          CellsDistinct(f, c, frame, channel, l.channels);
        }
        forall c | 0 <= c < channel && Cell(frame, c, l.channels) < output.Length
          ensures output[Cell(frame, c, l.channels)] == before[Cell(frame, c, l.channels)]
        {
          CellsDistinct(frame, c, frame, channel, l.channels);
        }
      }
    }
  }

  /** Writes the next frame of a signal to the channels that carry it. */
  method WriteFrame(output: array<Sample>, ghost signal: seq<Sample>, value: Sample, frame: nat,
                    ghost frames: nat, l: Layout)
    requires ValidLayout(l) && frames * l.channels <= output.Length
    requires frame == |signal| < frames && Shows(output[..], signal, frames, l)
    modifies output
    ensures Shows(output[..], signal + [value], frames, l)
  {
    hide Cell;
    ghost var was := output[..];
    if l.mapping.DuplicateAllChannels? {
      for channel := 0 to l.channels
        invariant forall c :: 0 <= c < channel && Cell(frame, c, l.channels) < output.Length ==>
                                output[Cell(frame, c, l.channels)] == value
        invariant forall f, c :: 0 <= f < frames && 0 <= c < l.channels && Cell(f, c, l.channels) < output.Length
                                 && (f != frame || channel <= c) ==>
                                   output[Cell(f, c, l.channels)] == was[Cell(f, c, l.channels)]
      {
        CellBound(frame, channel, frames, l.channels);
        ghost var before := output[..];
        output[Cell(frame, channel, l.channels)] := value;
        OneCell(before, output[..], frame, channel, l.channels);
      }
    } else {
      CellBound(frame, l.selected, frames, l.channels);
      output[Cell(frame, l.selected, l.channels)] := value;
      OneCell(was, output[..], frame, l.selected, l.channels);
    }
  }

  lemma OneCell(before: seq<Sample>, after: seq<Sample>, frame: nat, channel: nat, channels: nat)
    requires |before| == |after| && channel < channels && Cell(frame, channel, channels) < |after|
    requires after == before[Cell(frame, channel, channels) := after[Cell(frame, channel, channels)]]
    ensures forall f, c :: 0 <= f && 0 <= c < channels && Cell(f, c, channels) < |after| && (f, c) != (frame, channel) ==>
                             after[Cell(f, c, channels)] == before[Cell(f, c, channels)]
  {
    hide Cell;
    forall f, c | 0 <= f && 0 <= c < channels && Cell(f, c, channels) < |after| && (f, c) != (frame, channel)
      ensures after[Cell(f, c, channels)] == before[Cell(f, c, channels)]
    {
      CellsDistinct(f, c, frame, channel, channels);
    }
  }

  datatype FaultReason = NoReason | BackendDisconnect | DeviceGone | CallbackContract | AdapterFault

  class AudioStream {
    const hasPlayback: bool
    const hasCapture: bool
    const prefillFrames: nat
    const playbackRing: FloatSpscRing
    const captureRing: FloatSpscRing
    const playbackScratch: array<Sample>
    const captureScratch: array<Sample>
    var playbackLayout: Layout
    var captureLayout: Layout
    var playbackTally: PlaybackTally
    var captureTally: CaptureTally
    var isPlaybackSignalGated: bool
    var faultReason: FaultReason
    ghost var history: PlaybackHistory
    ghost var heard: seq<Sample>
    ghost var taken: seq<Sample>

    predicate Valid()
      reads this, playbackRing, captureRing
    {
      && playbackRing.Valid() && captureRing.Valid() && playbackRing != captureRing
      && playbackRing.storage != captureRing.storage
      && playbackScratch != playbackRing.storage && playbackScratch != captureRing.storage
      && captureScratch != playbackRing.storage && captureScratch != captureRing.storage
      && playbackScratch != captureScratch
      && 0 < playbackScratch.Length == captureScratch.Length
      && (hasPlayback ==> ValidLayout(playbackLayout))
      && (hasCapture ==> ValidLayout(captureLayout))
    }

    ghost function PlaybackView(): Playback
      requires Valid()
      reads this, playbackRing, captureRing, playbackRing.storage
    {
      Playback(playbackRing.Contents(), playbackRing.capacity, isPlaybackSignalGated, playbackTally, history)
    }

    ghost function CaptureView(): Capture
      requires Valid()
      reads this, playbackRing, captureRing, captureRing.storage
    {
      Capture(captureRing.Contents(), captureRing.capacity, captureTally, heard, taken)
    }

    constructor (hasPlayback: bool, hasCapture: bool, playbackLayout: Layout, captureLayout: Layout, periodFrames: nat,
                 prefillFrames: nat, playbackCapacity: nat, captureCapacity: nat)
      requires hasPlayback ==> ValidLayout(playbackLayout)
      requires hasCapture ==> ValidLayout(captureLayout)
      requires 0 < periodFrames
      requires 0 < playbackCapacity <= MAXIMUM_CAPACITY && 0 < captureCapacity <= MAXIMUM_CAPACITY
      ensures Valid() && fresh(playbackRing) && fresh(captureRing) && fresh(playbackRing.storage)
              && fresh(captureRing.storage)
      ensures fresh(playbackScratch) && fresh(captureScratch)
      ensures PlaybackView() == NewPlayback(playbackCapacity) && CaptureView() == NewCapture(captureCapacity)
      ensures faultReason == NoReason
      ensures this.hasPlayback == hasPlayback && this.hasCapture == hasCapture && this.prefillFrames == prefillFrames
    {
      this.hasPlayback, this.hasCapture, this.prefillFrames := hasPlayback, hasCapture, prefillFrames;
      playbackRing := new FloatSpscRing(playbackCapacity);
      captureRing := new FloatSpscRing(captureCapacity);
      playbackScratch := new Sample[periodFrames](_ => 0.0);
      captureScratch := new Sample[periodFrames](_ => 0.0);
      this.playbackLayout, this.captureLayout := playbackLayout, captureLayout;
      playbackTally, captureTally := PlaybackTally(0, 0, 0, 0, 0, 0), CaptureTally(0, 0, 0, 0, 0);
      isPlaybackSignalGated, faultReason := false, NoReason;
      history, heard, taken := PlaybackHistory([], [], [], []), [], [];
    }

    // ------------------------------------------------------------ control thread

    method QueuePlayback(samples: seq<Sample>) returns (written: nat)
      requires Valid() && hasPlayback
      modifies this`history, playbackRing, playbackRing.storage
      ensures Valid()
      ensures written == Accepts(old(PlaybackView()), |samples|)
      ensures PlaybackView() == AfterQueue(old(PlaybackView()), samples)
    {
      if isPlaybackSignalGated {
        return 0;
      }
      written := playbackRing.Push(samples);
      history := history.(queued := history.queued + samples[..written]);
    }

    method GatePlaybackSignal()
      requires Valid()
      modifies this`isPlaybackSignalGated
      ensures Valid() && PlaybackView() == AfterGate(old(PlaybackView()))
    {
      isPlaybackSignalGated := true;
    }

    method ReadCapture(samples: array<Sample>, limit: nat) returns (count: nat)
      requires Valid() && hasCapture && limit <= samples.Length && samples != captureRing.storage
      modifies this`taken, captureRing, samples
      ensures Valid() && CaptureView() == AfterRead(old(CaptureView()), limit)
      ensures count == Min(limit, |old(CaptureView()).queue|)
      ensures samples[..count] == old(CaptureView()).queue[..count]
    {
      count := captureRing.Pop(samples, limit);
      taken := taken + samples[..count];
    }

    // -------------------------------------------------------------------- device

    /** Copies popped samples to the frames that follow those already written. */
    method WriteFrames(output: array<Sample>, ghost signal: seq<Sample>, processed: nat, popped: nat, frameCount: nat)
      requires ValidLayout(playbackLayout) && frameCount * playbackLayout.channels <= output.Length
      requires output != playbackScratch && popped <= playbackScratch.Length
      requires processed == |signal| && processed + popped <= frameCount
      requires Shows(output[..], signal, frameCount, playbackLayout)
      modifies output
      ensures Shows(output[..], signal + playbackScratch[..popped], frameCount, playbackLayout)
    {
      hide Shows;
      assert signal + playbackScratch[..0] == signal;
      for frame := 0 to popped
        invariant Shows(output[..], signal + playbackScratch[..frame], frameCount, playbackLayout)
      {
        WriteFrame(output, signal + playbackScratch[..frame], playbackScratch[frame], processed + frame, frameCount, playbackLayout);
        assert signal + playbackScratch[..frame] + [playbackScratch[frame]] == signal + playbackScratch[..frame + 1];
      }
    }

    /** One scratch-sized chunk: popped in any case, written only if the gate is open. */
    method DeliverChunk(output: array<Sample>, ghost sent: seq<Sample>, processed: nat, chunk: nat, frameCount: nat)
      returns (popped: nat)
      requires Valid() && hasPlayback && frameCount * playbackLayout.channels <= output.Length
      requires output != playbackScratch && output != playbackRing.storage && output != captureRing.storage
      requires chunk <= playbackScratch.Length && processed + chunk <= frameCount
      requires !isPlaybackSignalGated ==> processed == |sent|
      requires Shows(output[..], sent, frameCount, playbackLayout)
      modifies this`playbackTally, playbackRing, playbackScratch, output
      ensures Valid() && popped == Min(chunk, |old(playbackRing.Contents())|)
      ensures playbackRing.Contents() == old(playbackRing.Contents())[popped..]
      ensures playbackTally == old(playbackTally).(discarded := old(playbackTally).discarded + if isPlaybackSignalGated then popped else 0)
      ensures Shows(output[..], if isPlaybackSignalGated then sent else sent + old(playbackRing.Contents())[..popped],
                    frameCount, playbackLayout)
    {
      hide Shows, ValidLayout;
      popped := playbackRing.Pop(playbackScratch, chunk);
      if isPlaybackSignalGated {
        playbackTally := playbackTally.(discarded := playbackTally.discarded + popped);
      } else {
        WriteFrames(output, sent, processed, popped, frameCount);
      }
    }

    /** Empties the ring into the output in chunks of the scratch buffer's size. */
    method DeliverChunks(output: array<Sample>, frameCount: nat) returns (delivered: nat)
      requires Valid() && hasPlayback && frameCount * playbackLayout.channels <= output.Length
      requires output != playbackScratch && output != playbackRing.storage && output != captureRing.storage
      requires Shows(output[..], [], frameCount, playbackLayout)
      modifies this`playbackTally, playbackRing, playbackScratch, output
      ensures Valid()
      ensures var (queue, n) := (old(playbackRing.Contents()), Min(frameCount, |old(playbackRing.Contents())|));
              && delivered == (if isPlaybackSignalGated then 0 else n)
              && playbackRing.Contents() == queue[n..]
              && playbackTally == old(playbackTally).(discarded := old(playbackTally).discarded + if isPlaybackSignalGated then n else 0)
              && Shows(output[..], if isPlaybackSignalGated then [] else queue[..n], frameCount, playbackLayout)
    {
      hide Shows, ValidLayout, Window;
      ghost var queue, tally, gated := playbackRing.Contents(), playbackTally, isPlaybackSignalGated;
      var processed := 0;
      delivered := 0;
      hide FloatSpscRing.Contents;
      while processed < frameCount
        invariant Valid() && processed <= frameCount && isPlaybackSignalGated == gated
        invariant processed <= |queue| && playbackRing.Contents() == queue[processed..]
        invariant delivered == if gated then 0 else processed
        invariant Shows(output[..], if gated then [] else queue[..processed], frameCount, playbackLayout)
        invariant playbackTally == tally.(discarded := tally.discarded + if gated then processed else 0)
      {
        var chunk := Min(frameCount - processed, playbackScratch.Length);
        ghost var sent := if gated then [] else queue[..processed];
        var popped := DeliverChunk(output, sent, processed, chunk, frameCount);
        assert queue[processed..][popped..] == queue[processed + popped..];
        assert queue[..processed] + queue[processed..][..popped] == queue[..processed + popped];
        if !isPlaybackSignalGated {
          delivered := delivered + popped;
        }
        processed := processed + chunk;
        if popped < chunk {
          break;
        }
      }
    }

    /** The playback half of processCallback. */
    method PlayFrames(output: array?<Sample>, frameCount: nat)
      requires Valid() && hasPlayback
      requires output != null ==>
                 && frameCount * playbackLayout.channels <= output.Length
                 && output != playbackScratch && output != playbackRing.storage && output != captureRing.storage
      modifies this`playbackTally, this`history, this`faultReason, playbackRing, playbackScratch
      modifies if output == null then {} else {output}
      ensures Valid() && PlaybackView() == AfterCallback(old(PlaybackView()), frameCount, output != null)
      ensures output != null ==> Shows(output[..], Signal(old(PlaybackView()), frameCount), frameCount, playbackLayout)
      ensures faultReason == if output == null && frameCount != 0 then Noted(old(faultReason), CallbackContract) else old(faultReason)
    {
      hide Shows, ValidLayout;
      ghost var p := PlaybackView();
      playbackTally := playbackTally.(requested := playbackTally.requested + frameCount);
      var delivered := 0;
      if output != null {
        ZeroFill(output, frameCount, playbackLayout);
        delivered := DeliverChunks(output, frameCount);
      } else {
        assert p.queue[0..] == p.queue;
      }
      var zeroFilled := frameCount - delivered;
      playbackTally := playbackTally.(delivered := playbackTally.delivered + delivered,
                                      zeroFilled := playbackTally.zeroFilled + zeroFilled);
      if zeroFilled != 0 && !isPlaybackSignalGated {
        playbackTally := playbackTally.(underrunCallbacks := playbackTally.underrunCallbacks + 1,
                                        underrunFrames := playbackTally.underrunFrames + zeroFilled);
      }
      if output == null && frameCount != 0 {
        faultReason := Noted(faultReason, CallbackContract);
      }
      history := CallbackHistory(p, frameCount, output != null);
    }

    /** Copies the selected channel of some frames into the scratch buffer. */
    method FillScratch(input: array<Sample>, processed: nat, chunk: nat)
      requires chunk <= captureScratch.Length && ValidLayout(captureLayout) && input != captureScratch
      requires (processed + chunk) * captureLayout.channels <= input.Length
      modifies captureScratch
      ensures captureScratch[..chunk] == SelectedInput(input[..], processed + chunk, captureLayout)[processed..]
    {
      hide Cell;
      for frame := 0 to chunk
        invariant forall k :: 0 <= k < frame ==>
                                captureScratch[k] == ReadCell(input[..], Cell(processed + k, captureLayout.selected, captureLayout.channels))
      {
        CellBound(processed + frame, captureLayout.selected, processed + chunk, captureLayout.channels);
        captureScratch[frame] := input[Cell(processed + frame, captureLayout.selected, captureLayout.channels)];
      }
    }

    /** The capture half of processCallback. */
    method CaptureFrames(input: array?<Sample>, frameCount: nat)
      requires Valid() && hasCapture
      requires input != null ==>
                 && frameCount * captureLayout.channels <= input.Length
                 && input != captureScratch && input != playbackRing.storage && input != captureRing.storage
      modifies this`captureTally, this`heard, this`faultReason, captureRing, captureRing.storage, captureScratch
      ensures Valid()
      ensures CaptureView() == AfterCapture(old(CaptureView()), frameCount, input != null,
                                            if input == null then [] else SelectedInput(input[..], frameCount, captureLayout))
      ensures faultReason == if input == null && frameCount != 0 then Noted(old(faultReason), CallbackContract) else old(faultReason)
    {
      hide ValidLayout;
      captureTally := captureTally.(received := captureTally.received + frameCount);
      var written := 0;
      if input != null {
        written := KeepChunks(input, frameCount);
        heard := heard + SelectedInput(input[..], frameCount, captureLayout)[..written];
      }
      var dropped := frameCount - written;
      captureTally := captureTally.(written := captureTally.written + written, dropped := captureTally.dropped + dropped);
      if dropped != 0 {
        captureTally := captureTally.(overrunCallbacks := captureTally.overrunCallbacks + 1,
                                      overrunFrames := captureTally.overrunFrames + dropped);
      }
      if input == null && frameCount != 0 {
        faultReason := Noted(faultReason, CallbackContract);
      }
    }

    method KeepChunks(input: array<Sample>, frameCount: nat) returns (written: nat)
      requires Valid() && hasCapture && frameCount * captureLayout.channels <= input.Length
      requires input != captureScratch && input != captureRing.storage && input != playbackRing.storage
      modifies captureRing, captureRing.storage, captureScratch
      ensures Valid()
      ensures written == Kept(old(CaptureView()), frameCount, true)
      ensures captureRing.Contents() == old(captureRing.Contents()) + SelectedInput(input[..], frameCount, captureLayout)[..written]
    {
      hide ValidLayout, Cell;
      ghost var c := CaptureView();
      ghost var heard := SelectedInput(input[..], frameCount, captureLayout);
      var processed := 0;
      written := 0;
      while processed < frameCount
        invariant Valid() && processed <= frameCount && written == Kept(c, processed, true)
        invariant captureRing.Contents() == c.queue + heard[..written]
      {
        var chunk := Min(frameCount - processed, captureScratch.Length);
        ChunkBound(processed + chunk, frameCount, captureLayout.channels);
        FillScratch(input, processed, chunk);
        var count := captureRing.Push(captureScratch[..chunk]);
        if count > 0 {
          assert written == processed;
          assert captureScratch[..chunk][..count] == heard[processed..processed + count];
        }
        assert c.queue + heard[..written] + captureScratch[..chunk][..count] == c.queue + heard[..written + count];
        written := written + count;
        processed := processed + chunk;
      }
    }

    lemma ChunkBound(done: nat, frames: nat, channels: nat)
      requires done <= frames
      ensures done * channels <= frames * channels
    {
      if done < frames {
        FrameBelow(done, frames, channels);
      }
    }

    method ProcessCallback(output: array?<Sample>, input: array?<Sample>, frameCount: nat)
      requires Valid()
      requires hasPlayback && output != null ==>
                 && frameCount * playbackLayout.channels <= output.Length
                 && output != playbackScratch && output != playbackRing.storage && output != captureRing.storage
      requires hasCapture && input != null ==>
                 && frameCount * captureLayout.channels <= input.Length && input != output
                 && input != captureScratch && input != playbackRing.storage && input != captureRing.storage
                 && input != playbackScratch
      requires output != null ==> output != captureScratch
      modifies this`playbackTally, this`history, this`captureTally, this`heard, this`faultReason, playbackRing, playbackScratch
      modifies captureRing, captureRing.storage, captureScratch
      modifies if output == null then {} else {output}
      ensures Valid()
      ensures PlaybackView() == if hasPlayback then AfterCallback(old(PlaybackView()), frameCount, output != null) else old(PlaybackView())
      ensures hasPlayback && output != null ==>
                Shows(output[..], Signal(old(PlaybackView()), frameCount), frameCount, playbackLayout)
      ensures hasCapture ==>
                CaptureView() == AfterCapture(old(CaptureView()), frameCount, input != null,
                                              if input == null then [] else SelectedInput(old(input[..]), frameCount, captureLayout))
      ensures !hasCapture ==> CaptureView() == old(CaptureView())
      // a missing buffer of either direction is noted, unless a reason was noted before
      ensures faultReason ==
              if frameCount != 0 && ((hasPlayback && output == null) || (hasCapture && input == null))
              then Noted(old(faultReason), CallbackContract) else old(faultReason)
    {
      hide Shows, ValidLayout, AfterCallback, AfterCapture, SelectedInput, Signal;
      if hasPlayback {
        PlayFrames(output, frameCount);
      }
      if hasCapture {
        CaptureFrames(input, frameCount);
      }
    }
  }

  /** A callback's buffer, read on the selected channel, is what the history says was sent. */
  lemma BufferIsSent(p: Playback, buffer: seq<Sample>, frames: nat, l: Layout)
    requires ValidLayout(l) && frames * l.channels <= |buffer| && Shows(buffer, Signal(p, frames), frames, l)
    ensures AfterCallback(p, frames, true).history.sent == p.history.sent + SelectedInput(buffer, frames, l)
  {
    hide Cell;
    var heard := SelectedInput(buffer, frames, l);
    var signal := Signal(p, frames);
    forall f | 0 <= f < frames
      ensures heard[f] == (signal + Zeros(frames - |signal|))[f]
    {
      CellBound(f, l.selected, frames, l.channels);
    }
    assert heard == signal + Zeros(frames - |signal|);
    if p.gated {
      assert signal + Zeros(frames) == Zeros(frames);
    }
  }

  /** notifyCallbackFault: the first reason stays. */
  function Noted(current: FaultReason, reason: FaultReason): FaultReason {
    if current.NoReason? then reason else current
  }
}
