/** The lifecycle of an AudioStream (src/audio/audio_stream.cpp): opening, priming,
    starting, stopping and closing over an adapter that may fail at any call, and the reset
    of the rings, which no callback may overlap. */
module AudioLifecycle {
  import opened Optional
  import opened AudioStream

  datatype StreamState = Closed | Opening | Opened | Primed | Running | Stopping | Faulted

  datatype StreamError = InvalidTransition | BadIdentity | Cancelled | Failed | InsufficientPrefill

  type OperationResult = Option<StreamError>

  /** One adapter call: whether it succeeded and whether callbacks run afterwards. */
  datatype Answer = Answer(ok: bool, runs: bool)

  /** What the adapter answers during one operation, which makes each call at most once. */
  datatype Answers = Answers(open: Answer, prime: Answer, start: Answer, requestStop: Answer, stop: Answer, close: Answer)

  /** The stream as the control thread sees it; `runs` says whether callbacks run. */
  datatype Control = Control(state: StreamState, reason: FaultReason, stopRequested: bool, starts: nat, stops: nat,
                             faults: nat, runs: bool)

  const NEW_STREAM := Control(Closed, NoReason, false, 0, 0, 0, false)

  /** An adapter starts callbacks only in start, and after a successful stop or close none
      runs. */
  predicate Behaves(c: Control, a: Answers) {
    && !a.open.runs
    && (a.prime.runs ==> c.runs)
    && (a.requestStop.runs ==> c.runs)
    && (a.stop.runs ==> a.requestStop.runs || c.runs) && (a.stop.ok ==> !a.stop.runs)
    && (a.close.runs ==> a.stop.runs || a.requestStop.runs || c.runs) && (a.close.ok ==> !a.close.runs)
  }

  /** markAdapterFault, with the state that goes with it. */
  function Fault(c: Control): Control {
    c.(state := Faulted, reason := AdapterFault, faults := c.faults + 1)
  }

  /** What an open is asked to do: whether the device selection holds in the snapshot,
      whether it is cancelled before or during, and whether the negotiated facts fit. */
  datatype OpenRequest = OpenRequest(selectionHolds: bool, cancelledBefore: bool, cancelledDuring: bool, factsFit: bool)

  datatype Operation =
    | Open(request: OpenRequest)
    | Prime(cancelledBefore: bool, cancelledDuring: bool)
    | Start(prefilled: bool)
    | RequestStop
    | Stop
    | Close
    | ResetRings
    | Poll
    | CallbackFault(reason: FaultReason)

  type Outcome = (Control, OperationResult)

  function AfterOpen(c: Control, request: OpenRequest, a: Answers): Outcome {
    if !c.state.Closed? then (c, Some(InvalidTransition))
    else if !request.selectionHolds then (c, Some(BadIdentity))
    else if request.cancelledBefore then (c, Some(Cancelled))
    else
      var acquired := c.(reason := NoReason, stopRequested := false, runs := a.open.runs);
      if !a.open.ok then (Fault(acquired), Some(Failed))
      else if request.cancelledDuring then (acquired.(state := Closed, runs := a.close.runs), Some(Cancelled))
      else if !request.factsFit then (acquired.(state := Closed, runs := a.close.runs), Some(Failed))
      else (acquired.(state := Opened), None)
  }

  function AfterPrime(c: Control, cancelledBefore: bool, cancelledDuring: bool, a: Answers): Outcome {
    if !c.state.Opened? then (c, Some(InvalidTransition))
    else if cancelledBefore then (c, Some(Cancelled))
    else if !a.prime.ok then (Fault(c.(runs := a.prime.runs)), Some(Failed))
    else if cancelledDuring then (c.(runs := a.prime.runs), Some(Cancelled))
    else (c.(state := Primed, runs := a.prime.runs), None)
  }

  function AfterStart(c: Control, prefilled: bool, a: Answers): Outcome {
    if !c.state.Primed? then (c, Some(InvalidTransition))
    else if !prefilled then (c, Some(InsufficientPrefill))
    else if !a.start.ok then (Fault(c.(runs := a.start.runs)), Some(Failed))
    else (c.(state := Running, stopRequested := false, starts := c.starts + 1, runs := a.start.runs), None)
  }

  function AfterRequestStop(c: Control, a: Answers): Outcome {
    if c.state.Closed? || c.state.Stopping? then (c, None)
    else if c.state.Opening? then (c, Some(InvalidTransition))
    else
      var asked := c.(stopRequested := true, runs := a.requestStop.runs);
      if a.requestStop.ok then (asked.(state := Stopping), None) else (Fault(asked), Some(Failed))
  }

  function AfterStop(c: Control, a: Answers): Outcome {
    if c.state.Closed? || c.state.Opened? || c.state.Primed? then (c, None)
    else
      var asked := if c.state.Running? then AfterRequestStop(c, a) else (c, None);
      if asked.1.Some? then asked
      else if !asked.0.state.Stopping? && !asked.0.state.Faulted? then (asked.0, Some(InvalidTransition))
      else if !a.stop.ok then (Fault(asked.0.(runs := a.stop.runs)), Some(Failed))
      else (asked.0.(state := Opened, stops := asked.0.stops + 1, runs := a.stop.runs), None)
  }

  function AfterClose(c: Control, a: Answers): Outcome {
    if c.state.Closed? then (c, None)
    else
      var asked := if c.state.Running? || c.state.Stopping? || c.state.Faulted? then AfterRequestStop(c, a) else (c, None);
      var stopped := if c.state.Running? || c.state.Stopping? || c.state.Faulted? then AfterStop(asked.0, a) else (c, None);
      var error := if asked.1.Some? then asked.1 else stopped.1;
      var left := stopped.0.(runs := a.close.runs);
      var released := if a.close.ok then left else Fault(left);
      var result := if error.None? && !a.close.ok then Some(Failed) else error;
      (if result.None? then released.(state := Closed) else released, result)
  }

  predicate Resettable(c: Control) {
    c.state.Closed? || c.state.Opened? || c.state.Primed?
  }

  function AfterPoll(c: Control): Control {
    if !c.reason.NoReason? && !c.state.Faulted? && !c.state.Closed? then c.(state := Faulted, faults := c.faults + 1) else c
  }

  function After(c: Control, op: Operation, a: Answers): Outcome {
    match op
    case Open(request) => AfterOpen(c, request, a)
    case Prime(before, during) => AfterPrime(c, before, during, a)
    case Start(prefilled) => AfterStart(c, prefilled, a)
    case RequestStop => AfterRequestStop(c, a)
    case Stop => AfterStop(c, a)
    case Close => AfterClose(c, a)
    case ResetRings => (c, if Resettable(c) then None else Some(InvalidTransition))
    case Poll => (AfterPoll(c), None)
    case CallbackFault(reason) => (c.(reason := Noted(c.reason, reason)), None)
  }

  // ---------------------------------------------------------------------- every run

  datatype Step = Step(op: Operation, answers: Answers)

  function Play(steps: seq<Step>): Control {
    if steps == [] then NEW_STREAM else After(Play(steps[..|steps| - 1]), steps[|steps| - 1].op, steps[|steps| - 1].answers).0
  }

  /** Every answer of a run is one that an adapter may give at that point. */
  predicate Behaved(steps: seq<Step>) {
    steps == [] || (Behaved(steps[..|steps| - 1]) && Behaves(Play(steps[..|steps| - 1]), steps[|steps| - 1].answers))
  }

  predicate Quiet(c: Control) {
    (c.runs ==> c.state.Running? || c.state.Stopping? || c.state.Faulted?) && !c.state.Opening?
  }

  lemma StopKeepsQuiet(c: Control, a: Answers)
    requires Quiet(c) && Behaves(c, a)
    ensures Quiet(AfterRequestStop(c, a).0) && Quiet(AfterStop(c, a).0)
  {
  }

  lemma CloseKeepsQuiet(c: Control, a: Answers)
    requires Quiet(c) && Behaves(c, a)
    ensures Quiet(AfterClose(c, a).0)
  {
  }

  lemma StepKeepsQuiet(c: Control, op: Operation, a: Answers)
    requires Quiet(c) && Behaves(c, a)
    ensures Quiet(After(c, op, a).0)
  {
    StopKeepsQuiet(c, a);
    CloseKeepsQuiet(c, a);
    hide AfterRequestStop, AfterStop, AfterClose;
  }

  /** Callbacks run only while the stream is running, stopping or faulted, so that the rings
      are never reset under one. */
  lemma {:induction false} RingsResetQuietly(steps: seq<Step>)
    requires Behaved(steps)
    ensures Quiet(Play(steps)) && (Resettable(Play(steps)) ==> !Play(steps).runs)
  {
    hide After, Behaves;
    if steps != [] {
      var last := steps[|steps| - 1];
      RingsResetQuietly(steps[..|steps| - 1]);
      StepKeepsQuiet(Play(steps[..|steps| - 1]), last.op, last.answers);
    }
  }

  predicate Cooperates(a: Answers) {
    a.requestStop.ok && a.stop.ok && a.close.ok
  }

  /** After any run, one close over an adapter that fails no more ends with the stream
      closed, no error and no callback running. */
  lemma CloseReleases(steps: seq<Step>, a: Answers)
    requires Behaved(steps) && Behaves(Play(steps), a) && Cooperates(a)
    ensures var (c, error) := AfterClose(Play(steps), a);
            error.None? && c.state.Closed? && !c.runs
  {
    RingsResetQuietly(steps);
  }

  /** A close reports success exactly when the stream ends closed, and then no callback
      runs. */
  lemma CloseIsHonest(steps: seq<Step>, a: Answers)
    requires Behaved(steps) && Behaves(Play(steps), a)
    ensures var (c, error) := AfterClose(Play(steps), a);
            (error.None? <==> c.state.Closed?) && (c.state.Closed? ==> !c.runs) && (a.close.ok ==> !c.runs)
  {
    RingsResetQuietly(steps);
  }

  /** A stop that succeeds leaves no callback running and the rings resettable. */
  lemma StopIsHonest(steps: seq<Step>, a: Answers)
    requires Behaved(steps) && Behaves(Play(steps), a)
    ensures var (c, error) := AfterStop(Play(steps), a);
            error.None? ==> !c.runs && Resettable(c)
  {
    RingsResetQuietly(steps);
  }

  predicate MustBeAsked(c: Control) {
    c.state.Running? || c.state.Faulted?
  }

  /** After any run, close leaves the stream opened, over an adapter that has closed, exactly
      if the adapter refused the stop request of a running or faulted stream and then
      stopped and closed; and closed exactly if every call that was needed succeeded. */
  lemma ClosedExactly(steps: seq<Step>, a: Answers)
    requires Behaved(steps) && Behaves(Play(steps), a)
    ensures var (c, d) := (Play(steps), AfterClose(Play(steps), a).0);
            && (d.state.Opened? <==> MustBeAsked(c) && !a.requestStop.ok && a.stop.ok && a.close.ok)
            && (d.state.Closed? <==>
                  || c.state.Closed?
                  || (a.close.ok && (MustBeAsked(c) ==> a.requestStop.ok && a.stop.ok) && (c.state.Stopping? ==> a.stop.ok)))
  {
    RingsResetQuietly(steps);
  }

  /** A stream so left open is closed by the next close. */
  lemma RefusedRequestKeepsOpened(steps: seq<Step>, a: Answers, again: Answers)
    requires Behaved(steps) && MustBeAsked(Play(steps)) && Behaves(Play(steps), a)
    requires !a.requestStop.ok && a.stop.ok && a.close.ok
    requires Behaves(AfterClose(Play(steps), a).0, again) && again.close.ok
    ensures var (c, error) := AfterClose(Play(steps), a);
            error.Some? && c.state.Opened? && !c.runs && AfterClose(c, again).1.None? && AfterClose(c, again).0.state.Closed?
  {
  }

  // ------------------------------------------------------------- the control thread

  /** The control-thread half of an AudioStream; the adapter's answers are parameters. */
  class AudioStreamControl {
    const stream: AudioStream
    var state: StreamState
    var stopRequested: bool
    var startCount: nat
    var stopCount: nat
    var faultCount: nat
    ghost var callbacksRun: bool

    ghost function View(): Control
      reads this, stream
    {
      Control(state, stream.faultReason, stopRequested, startCount, stopCount, faultCount, callbacksRun)
    }

    constructor (stream: AudioStream)
      requires stream.faultReason.NoReason?
      ensures View() == NEW_STREAM && this.stream == stream
    {
      this.stream := stream;
      state, stopRequested, startCount, stopCount, faultCount, callbacksRun := Closed, false, 0, 0, 0, false;
    }

    method MarkAdapterFault()
      modifies this`faultCount, this`state, stream`faultReason
      ensures View() == Fault(old(View()))
    {
      state := Faulted;
      stream.faultReason := AdapterFault;
      faultCount := faultCount + 1;
    }

    method Open(request: OpenRequest, answers: Answers) returns (result: OperationResult)
      modifies this, stream`faultReason
      ensures (View(), result) == AfterOpen(old(View()), request, answers)
    {
      if !state.Closed? {
        return Some(InvalidTransition);
      }
      if !request.selectionHolds {
        return Some(BadIdentity);
      }
      if request.cancelledBefore {
        return Some(Cancelled);
      }
      state := Opening;
      stream.faultReason := NoReason;
      stopRequested := false;
      callbacksRun := answers.open.runs;
      if !answers.open.ok {
        MarkAdapterFault();
        return Some(Failed);
      }
      if request.cancelledDuring {
        callbacksRun := answers.close.runs;
        state := Closed;
        return Some(Cancelled);
      }
      if !request.factsFit {
        callbacksRun := answers.close.runs;
        state := Closed;
        return Some(Failed);
      }
      state := Opened;
      result := None;
    }

    method Prime(cancelledBefore: bool, cancelledDuring: bool, answers: Answers) returns (result: OperationResult)
      modifies this, stream`faultReason
      ensures (View(), result) == AfterPrime(old(View()), cancelledBefore, cancelledDuring, answers)
    {
      if !state.Opened? {
        return Some(InvalidTransition);
      }
      if cancelledBefore {
        return Some(Cancelled);
      }
      callbacksRun := answers.prime.runs;
      if !answers.prime.ok {
        MarkAdapterFault();
        return Some(Failed);
      }
      if cancelledDuring {
        return Some(Cancelled);
      }
      state := Primed;
      result := None;
    }

    /** Starts only with the prefill in the ring. */
    method Start(answers: Answers) returns (result: OperationResult)
      requires stream.Valid()
      modifies this, stream`faultReason
      ensures var prefilled := !stream.hasPlayback || |stream.playbackRing.Contents()| >= stream.prefillFrames;
              (View(), result) == AfterStart(old(View()), prefilled, answers)
    {
      if !state.Primed? {
        return Some(InvalidTransition);
      }
      if stream.hasPlayback && stream.playbackRing.AvailableRead() < stream.prefillFrames {
        return Some(InsufficientPrefill);
      }
      callbacksRun := answers.start.runs;
      if !answers.start.ok {
        MarkAdapterFault();
        return Some(Failed);
      }
      stopRequested := false;
      startCount := startCount + 1;
      state := Running;
      result := None;
    }

    method RequestStop(answers: Answers) returns (result: OperationResult)
      modifies this, stream`faultReason
      ensures (View(), result) == AfterRequestStop(old(View()), answers)
    {
      if state.Closed? || state.Stopping? {
        return None;
      }
      if !state.Running? && !state.Primed? && !state.Opened? && !state.Faulted? {
        return Some(InvalidTransition);
      }
      stopRequested := true;
      callbacksRun := answers.requestStop.runs;
      if !answers.requestStop.ok {
        MarkAdapterFault();
        return Some(Failed);
      }
      state := Stopping;
      result := None;
    }

    method Stop(answers: Answers) returns (result: OperationResult)
      modifies this, stream`faultReason
      ensures (View(), result) == AfterStop(old(View()), answers)
    {
      if state.Closed? || state.Opened? || state.Primed? {
        return None;
      }
      if state.Running? {
        result := RequestStop(answers);
        if result.Some? {
          return;
        }
      }
      if !state.Stopping? && !state.Faulted? {
        return Some(InvalidTransition);
      }
      callbacksRun := answers.stop.runs;
      if !answers.stop.ok {
        MarkAdapterFault();
        return Some(Failed);
      }
      stopCount := stopCount + 1;
      state := Opened;
      result := None;
    }

    method Close(answers: Answers) returns (firstError: OperationResult)
      modifies this, stream`faultReason
      ensures (View(), firstError) == AfterClose(old(View()), answers)
    {
      if state.Closed? {
        return None;
      }
      firstError := None;
      if state.Running? || state.Stopping? || state.Faulted? {
        firstError := RequestStop(answers);
        var stopResult := Stop(answers);
        if firstError.None? && stopResult.Some? {
          firstError := stopResult;
        }
      }
      callbacksRun := answers.close.runs;
      if !answers.close.ok {
        MarkAdapterFault();
        if firstError.None? {
          firstError := Some(Failed);
        }
      }
      if firstError.None? {
        state := Closed;
      }
    }

    /** Empties both rings and opens the gate, unless callbacks may be running. */
    method Reset() returns (result: OperationResult)
      requires stream.Valid()
      modifies stream.playbackRing, stream.captureRing, stream`isPlaybackSignalGated
      ensures stream.Valid() && View() == old(View()) && (View(), result) == After(old(View()), ResetRings, NO_ANSWERS)
      ensures result.None? ==>
                && stream.playbackRing.Contents() == [] && stream.captureRing.Contents() == []
                && !stream.isPlaybackSignalGated
      ensures result.Some? ==>
                && stream.playbackRing.Contents() == old(stream.playbackRing.Contents())
                && stream.captureRing.Contents() == old(stream.captureRing.Contents())
                && stream.isPlaybackSignalGated == old(stream.isPlaybackSignalGated)
    {
      if !state.Closed? && !state.Opened? && !state.Primed? {
        return Some(InvalidTransition);
      }
      stream.playbackRing.Reset();
      stream.captureRing.Reset();
      stream.isPlaybackSignalGated := false;
      result := None;
    }

    method PollState() returns (current: StreamState)
      modifies this
      ensures View() == AfterPoll(old(View())) && current == state
    {
      if !stream.faultReason.NoReason? && !state.Faulted? && !state.Closed? {
        state := Faulted;
        faultCount := faultCount + 1;
      }
      current := state;
    }
  }

  const SILENT := Answer(true, false)

  /** For operations that make no adapter call. */
  const NO_ANSWERS := Answers(SILENT, SILENT, SILENT, SILENT, SILENT, SILENT)
}
