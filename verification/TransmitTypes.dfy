/** Requests, policies, sources and outcomes of transmit sessions
    (include/sstv/app/transmit_coordinator.hpp), and the events of the run thread. */
module TransmitTypes {
  import opened Ptt
  import opened TransmitLog
  import opened TransmitWorld
  import opened PttSupervision

  const NOMINAL_RATE: nat := 48_000
  const MAXIMUM_SOURCE_FRAMES: nat := 28_800_000
  const MAXIMUM_BLOCK_FRAMES: nat := 4_096
  const MAXIMUM_TRACE_ENTRIES: nat := 1_024
  const MILLISECOND: nat := 1_000_000

  datatype TransmitState =
    | Preparing | CheckingPtt | OpeningAudio | PrimingAudio | ArmingWatchdog | Keying | PreKeyDelay
    | Transmitting | Draining | PostAudioTail | Unkeying | Completed | Faulting | Faulted | Cancelled | Idle

  datatype TransmitOutcome = OutcomeCompleted | OutcomeCancelled | OutcomeFaulted | OutcomeHazardous | OutcomeRejected

  /** All durations in milliseconds. */
  datatype TransmitPolicy = TransmitPolicy(
    keyTimeout: int, readbackTimeout: int, preKeyDelay: int, heartbeatInterval: int, watchdogLease: int,
    audioDrainTimeout: int, postAudioTail: int, unkeyTimeout: int, unkeyAttempts: nat, retryDelay: int,
    shutdownDeadline: int)

  datatype TransmitRequest = TransmitRequest(policy: TransmitPolicy, sampleRate: nat, prefillFrames: nat, blockFrames: nat)

  datatype SourceFacts = SourceFacts(sampleRate: nat, containsNonSilence: bool)

  predicate IsTimeout(value: int, maximum: int) {
    0 < value <= maximum
  }

  predicate IsDelay(value: int, maximum: int) {
    0 <= value <= maximum
  }

  predicate ValidPolicy(p: TransmitPolicy) {
    && IsTimeout(p.keyTimeout, 10_000) && IsTimeout(p.readbackTimeout, 10_000)
    && IsTimeout(p.heartbeatInterval, 10_000) && IsTimeout(p.watchdogLease, 10_000)
    && IsTimeout(p.unkeyTimeout, 10_000)
    && IsTimeout(p.audioDrainTimeout, 30_000) && IsTimeout(p.shutdownDeadline, 30_000)
    && IsDelay(p.preKeyDelay, 5_000) && IsDelay(p.postAudioTail, 2_000) && IsDelay(p.retryDelay, 2_000)
    && 0 < p.unkeyAttempts <= 8
    && p.heartbeatInterval < p.watchdogLease
    && p.unkeyTimeout * p.unkeyAttempts + p.retryDelay * (p.unkeyAttempts - 1) <= p.shutdownDeadline
  }

  predicate ValidRequest(r: TransmitRequest, facts: SourceFacts, frameCount: nat) {
    && r.sampleRate == NOMINAL_RATE && facts.sampleRate == r.sampleRate
    && 0 < frameCount <= MAXIMUM_SOURCE_FRAMES
    && 0 < r.blockFrames <= MAXIMUM_BLOCK_FRAMES
    && 0 < r.prefillFrames <= MAXIMUM_SOURCE_FRAMES
    && ValidPolicy(r.policy)
  }

  function CleanupPolicy(p: TransmitPolicy): PttCleanupPolicy
    requires ValidPolicy(p)
  {
    PttCleanupPolicy(p.unkeyTimeout * MILLISECOND, p.unkeyAttempts, p.retryDelay * MILLISECOND)
  }

  // ----------------------------------------------------------------------- source

  datatype SampleReadResult = Frames(block: seq<Sample>) | SourceError

  /** A finite source: it hands out its samples in order, in blocks of its own choosing
      that never exceed the block it is given. */
  class FiniteSampleSource {
    const samples: seq<Sample>
    const facts: SourceFacts
    var position: nat
    var isCancelled: bool

    constructor (samples: seq<Sample>, facts: SourceFacts)
      ensures this.samples == samples && this.facts == facts && position == 0 && !isCancelled
    {
      this.samples, this.facts, position, isCancelled := samples, facts, 0, false;
    }

    predicate IsExhausted()
      reads this
    {
      isCancelled || position >= |samples|
    }

    method Read(blockFrames: nat, reply: SourceReply) returns (result: SampleReadResult)
      requires position <= |samples|
      modifies this`position
      ensures position <= |samples|
      ensures result.SourceError? ==> position == old(position)
      ensures result.Frames? ==>
                && |result.block| <= blockFrames
                && position == old(position) + |result.block|
                && result.block == samples[old(position)..position]
    {
      if reply.fails {
        return SourceError;
      }
      var available := if isCancelled then 0 else |samples| - position;
      var limit := if available < blockFrames then available else blockFrames;
      var count := if reply.count < limit then reply.count else limit;
      result := Frames(samples[position..position + count]);
      position := position + count;
    }
  }

  // ------------------------------------------------------------- run-thread events

  predicate IsRunEvent(e: Event) {
    || e.Opened? || e.Prefilled? || e.Primed? || e.Started? || e.Armed? || e.Queued? || e.SignalFinished?
    || e.StopRequested? || e.Stopped? || e.Closed?
    || e.WatchdogMissing? || e.SourceFailed? || e.DrainTimedOut? || e.TailBegun? || e.TailEnded?
  }

  lemma RunEvent(s: Shared, e: Event)
    requires Inv(s) && IsRunEvent(e)
    ensures Inv(Emit(s, e))
    ensures MonitorOf(Emit(s, e)) == Step(MonitorOf(s), e)
    ensures MonitorOf(Emit(s, e)).danger == MonitorOf(s).danger && MonitorOf(Emit(s, e)).keys == MonitorOf(s).keys
  {
    hide Watch;
    WatchAppend(s.log, e);
  }

  lemma KeyEvent(s: Shared, attempt: nat, deadline: int, reply: PttOperationResult)
    requires Inv(s)
    ensures var (t, r) := TransmitWorld.Execute(s, RunThread, Key, attempt, deadline, reply);
            && Inv(t) && t == s.(log := t.log)
            && MonitorOf(t) == OnKey(MonitorOf(s), IsKeyed(r), r.certainty.DefinitelyUnkeyed?)
  {
    hide Watch;
    var (t, r) := TransmitWorld.Execute(s, RunThread, Key, attempt, deadline, reply);
    if deadline <= s.now || attempt == 0 {
      WatchAppend(s.log, Refused(RunThread, Key));
    } else {
      WatchAppend(s.log, Provider(RunThread, Key, r));
    }
  }
}
