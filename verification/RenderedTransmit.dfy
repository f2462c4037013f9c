/** AudioStreamTransmitEndpoint (src/app/rendered_transmit.cpp): the transmit session's view
    of an audio stream, which notices when the signal runs dry before its end. */
module RenderedTransmit {
  import opened Arithmetic
  import opened SampleRing
  import opened AudioFlow
  import opened AudioStream

  function MapFault(reason: FaultReason): TransmitLog.AudioFault {
    match reason
    case NoReason => TransmitLog.NoFault
    case BackendDisconnect => TransmitLog.Disconnected
    case DeviceGone => TransmitLog.DeviceRemoved
    case CallbackContract => TransmitLog.AdapterFailure
    case AdapterFault => TransmitLog.AdapterFailure
  }

  datatype SignalFlags = SignalFlags(started: bool, baseline: nat, hasUnderrun: bool, finished: bool, gated: bool)

  datatype Endpoint = Endpoint(stream: Playback, reason: FaultReason, flags: SignalFlags)

  function NewEndpoint(capacity: nat): Endpoint {
    Endpoint(NewPlayback(capacity), NoReason, SignalFlags(false, 0, false, false, false))
  }

  function AfterPrefill(e: Endpoint, frames: nat): Endpoint {
    e.(stream := AfterQueue(e.stream, Zeros(frames)))
  }

  function Fits(e: Endpoint, frames: nat): bool {
    Accepts(e.stream, frames) == frames
  }

  /** Frames of the signal that the endpoint accepts. */
  function TakesSignal(e: Endpoint, offered: nat): nat {
    if e.flags.finished || e.flags.gated then 0 else Accepts(e.stream, offered)
  }

  function AfterSignal(e: Endpoint, samples: seq<Sample>): Endpoint {
    if e.flags.finished || e.flags.gated then e
    else
      var stream := AfterQueue(e.stream, samples);
      if Accepts(e.stream, |samples|) != 0 && !e.flags.started then
        e.(stream := stream, flags := e.flags.(started := true, baseline := stream.tally.underrunFrames))
      else e.(stream := stream)
  }

  function AfterFinish(e: Endpoint): Endpoint {
    e.(flags := e.flags.(
       hasUnderrun := e.flags.hasUnderrun || (e.flags.started && e.stream.tally.underrunFrames > e.flags.baseline),
       finished := true))
  }

  function AfterSignalGate(e: Endpoint): Endpoint {
    e.(stream := AfterGate(e.stream), flags := e.flags.(gated := true))
  }

  function AfterDevice(e: Endpoint, frames: nat, hasOutput: bool): Endpoint {
    e.(stream := AfterCallback(e.stream, frames, hasOutput),
    reason := if !hasOutput && frames != 0 then Noted(e.reason, CallbackContract) else e.reason)
  }

  function StatusOf(e: Endpoint): TransmitLog.AudioStatus {
    var fault := MapFault(e.reason);
    var dry := e.flags.hasUnderrun
               || (e.flags.started && !e.flags.finished && e.stream.tally.underrunFrames > e.flags.baseline);
    TransmitLog.AudioStatus(if fault.NoFault? && dry then TransmitLog.Underrun else fault,
                            e.flags.finished && e.stream.queue == [])
  }

  class AudioStreamTransmitEndpoint {
    const stream: AudioStream
    const silence: seq<Sample>
    var underrunBaseline: nat
    var hasSignalStarted: bool
    var hasSignalUnderrun: bool
    var isSignalFinished: bool
    var isSignalGated: bool

    predicate Valid()
      reads this, stream, stream.playbackRing, stream.captureRing
    {
      stream.Valid() && stream.hasPlayback && 0 < |silence| && silence == Zeros(|silence|)
    }

    ghost function View(): Endpoint
      requires Valid()
      reads this, stream, stream.playbackRing, stream.captureRing, stream.playbackRing.storage
    {
      Endpoint(stream.PlaybackView(), stream.faultReason,
               SignalFlags(hasSignalStarted, underrunBaseline, hasSignalUnderrun, isSignalFinished, isSignalGated))
    }

    constructor (stream: AudioStream)
      requires stream.Valid() && stream.hasPlayback
      ensures Valid() && this.stream == stream
      ensures View() == Endpoint(stream.PlaybackView(), stream.faultReason, SignalFlags(false, 0, false, false, false))
    {
      this.stream, silence := stream, Zeros(stream.playbackScratch.Length);
      underrunBaseline, hasSignalStarted, hasSignalUnderrun, isSignalFinished, isSignalGated := 0, false, false, false, false;
    }

    /** Queues silence in chunks; fails as soon as the ring accepts none. */
    method PrefillSilence(frames: nat) returns (ok: bool)
      requires Valid()
      modifies stream`history, stream.playbackRing, stream.playbackRing.storage
      ensures Valid()
      ensures ok == Fits(old(View()), frames)
      ensures View() == AfterPrefill(old(View()), frames)
    {
      hide Window;
      ghost var p := stream.PlaybackView();
      var remaining := frames;
      NothingQueued(p);
      while remaining != 0
        invariant Valid() && remaining <= frames
        invariant frames - remaining <= Accepts(p, frames)
        invariant View() == old(View()).(stream := AfterQueue(p, Zeros(frames - remaining)))
      {
        var chunk := Min(remaining, |silence|);
        var written := stream.QueuePlayback(silence[..chunk]);
        SilenceJoins(p, frames - remaining, chunk, frames);
        assert silence[..chunk] == Zeros(chunk);
        if written == 0 {
          return false;
        }
        remaining := remaining - written;
      }
      ok := true;
    }

    method Queue(samples: seq<Sample>) returns (written: nat)
      requires Valid()
      modifies this`hasSignalStarted, this`underrunBaseline
      modifies stream`history, stream.playbackRing, stream.playbackRing.storage
      ensures Valid()
      ensures written == TakesSignal(old(View()), |samples|)
      ensures View() == AfterSignal(old(View()), samples)
    {
      hide Window;
      if isSignalFinished || isSignalGated {
        return 0;
      }
      written := stream.QueuePlayback(samples);
      if written != 0 && !hasSignalStarted {
        hasSignalStarted := true;
        underrunBaseline := stream.playbackTally.underrunFrames;
      }
    }

    method FinishSignal()
      requires Valid()
      modifies this`hasSignalUnderrun, this`isSignalFinished
      ensures Valid() && View() == AfterFinish(old(View()))
    {
      if hasSignalStarted && stream.playbackTally.underrunFrames > underrunBaseline {
        hasSignalUnderrun := true;
      }
      isSignalFinished := true;
    }

    method GateSignal()
      requires Valid()
      modifies this`isSignalGated, stream`isPlaybackSignalGated
      ensures Valid() && View() == AfterSignalGate(old(View()))
    {
      isSignalGated := true;
      stream.GatePlaybackSignal();
    }

    method Status() returns (status: TransmitLog.AudioStatus)
      requires Valid()
      ensures status == StatusOf(View())
    {
      var fault := MapFault(stream.faultReason);
      if fault.NoFault? && hasSignalUnderrun {
        fault := TransmitLog.Underrun;
      } else if fault.NoFault? && hasSignalStarted && !isSignalFinished
                && stream.playbackTally.underrunFrames > underrunBaseline {
        fault := TransmitLog.Underrun;
      }
      status := TransmitLog.AudioStatus(fault, isSignalFinished && stream.playbackRing.AvailableRead() == 0);
    }
  }

  lemma NothingQueued(p: Playback)
    ensures AfterQueue(p, Zeros(0)) == p
  {
    assert p.queue + Zeros(0) == p.queue;
    assert p.history.queued + Zeros(0) == p.history.queued;
  }

  /** Queueing silence after fully accepted silence. */
  lemma SilenceJoins(p: Playback, done: nat, chunk: nat, frames: nat)
    requires done <= Accepts(p, frames) && done + chunk <= frames && 0 < chunk
    ensures var q := AfterQueue(p, Zeros(done));
            var n := Accepts(q, chunk);
            && AfterQueue(q, Zeros(chunk)) == AfterQueue(p, Zeros(done + n))
            && done + n <= Accepts(p, frames)
            && (n == 0 ==> done == Accepts(p, frames) < frames && AfterQueue(p, Zeros(done)) == AfterQueue(p, Zeros(frames)))
  {
    var q := AfterQueue(p, Zeros(done));
    var n := Accepts(q, chunk);
    assert Accepts(p, done) == done && Accepts(p, done + n) == done + n;
    assert p.queue + Zeros(done) + Zeros(n) == p.queue + Zeros(done + n);
    assert p.history.queued + Zeros(done) + Zeros(n) == p.history.queued + Zeros(done + n);
    assert Zeros(chunk)[..n] == Zeros(n) && Zeros(done)[..done] == Zeros(done);
    assert Zeros(done + n)[..done + n] == Zeros(done + n);
    if n == 0 {
      assert Zeros(frames)[..done] == Zeros(done);
    }
  }
}
