/** What an audio stream does with samples, as values: the effect of one queue, gate or
    callback on the rings and counters (src/audio/audio_stream.cpp), and where every frame
    goes over a whole history of them. */
module AudioFlow {
  import opened Arithmetic
  import opened SampleRing

  datatype PlaybackTally = PlaybackTally(
    requested: nat, delivered: nat, zeroFilled: nat, discarded: nat, underrunCallbacks: nat, underrunFrames: nat)

  /** Not part of the source: what has passed through so far. */
  datatype PlaybackHistory = PlaybackHistory(
    queued: seq<Sample>,      // accepted from the control thread
    played: seq<Sample>,      // handed to the device
    discarded: seq<Sample>,   // thrown away because of the gate
    sent: seq<Sample>)        // device frames: played samples and zeros

  datatype Playback = Playback(queue: seq<Sample>, capacity: nat, gated: bool, tally: PlaybackTally, history: PlaybackHistory)

  datatype CaptureTally = CaptureTally(received: nat, written: nat, dropped: nat, overrunCallbacks: nat, overrunFrames: nat)

  datatype Capture = Capture(queue: seq<Sample>, capacity: nat, tally: CaptureTally, heard: seq<Sample>, taken: seq<Sample>)

  function Zeros(n: nat): (z: seq<Sample>)
    ensures |z| == n && forall i :: 0 <= i < n ==> z[i] == 0.0
  {
    seq(n, _ => 0.0)
  }

  function NewPlayback(capacity: nat): Playback {
    Playback([], capacity, false, PlaybackTally(0, 0, 0, 0, 0, 0), PlaybackHistory([], [], [], []))
  }

  function NewCapture(capacity: nat): Capture {
    Capture([], capacity, CaptureTally(0, 0, 0, 0, 0), [], [])
  }

  // ------------------------------------------------------------------ single steps

  /** Frames that queuePlayback accepts. */
  function Accepts(p: Playback, offered: nat): nat {
    if p.gated then 0 else Min(offered, p.capacity - Min(|p.queue|, p.capacity))
  }

  function AfterQueue(p: Playback, samples: seq<Sample>): Playback {
    var n := Accepts(p, |samples|);
    p.(queue := p.queue + samples[..n], history := p.history.(queued := p.history.queued + samples[..n]))
  }

  function AfterGate(p: Playback): Playback {
    p.(gated := true)
  }

  /** Frames that a callback takes out of the ring. Without an output buffer it takes none. */
  function Taken(p: Playback, frames: nat, hasOutput: bool): (n: nat)
    ensures n <= |p.queue| && n <= frames
  {
    if hasOutput then Min(frames, |p.queue|) else 0
  }

  /** What the device is given: the signal if the gate is open, then zeros. */
  function Signal(p: Playback, frames: nat): seq<Sample> {
    if p.gated then [] else p.queue[..Taken(p, frames, true)]
  }

  function CallbackTally(t: PlaybackTally, frames: nat, taken: nat, gated: bool): PlaybackTally
    requires taken <= frames
  {
    var delivered := if gated then 0 else taken;
    var missing := frames - delivered;
    var underrun := missing != 0 && !gated;
    PlaybackTally(t.requested + frames, t.delivered + delivered, t.zeroFilled + missing,
                  t.discarded + (if gated then taken else 0),
                  t.underrunCallbacks + (if underrun then 1 else 0),
                  t.underrunFrames + (if underrun then missing else 0))
  }

  function CallbackHistory(p: Playback, frames: nat, hasOutput: bool): PlaybackHistory {
    var n := Taken(p, frames, hasOutput);
    var signal := Signal(p, frames);
    if !hasOutput then p.history
    else if p.gated then
      p.history.(discarded := p.history.discarded + p.queue[..n], sent := p.history.sent + Zeros(frames))
    else
      p.history.(played := p.history.played + p.queue[..n], sent := p.history.sent + p.queue[..n] + Zeros(frames - n))
  }

  function AfterCallback(p: Playback, frames: nat, hasOutput: bool): Playback {
    var n := Taken(p, frames, hasOutput);
    p.(queue := p.queue[n..], tally := CallbackTally(p.tally, frames, n, p.gated),
    history := CallbackHistory(p, frames, hasOutput))
  }

  /** Frames that a callback writes to the capture ring. Without an input buffer, none. */
  function Kept(c: Capture, frames: nat, hasInput: bool): (n: nat)
    ensures n <= frames
  {
    if hasInput then Min(frames, c.capacity - Min(|c.queue|, c.capacity)) else 0
  }

  /** `input` holds the selected channel's frames. */
  function AfterCapture(c: Capture, frames: nat, hasInput: bool, input: seq<Sample>): Capture
    requires hasInput ==> |input| == frames
  {
    var n := Kept(c, frames, hasInput);
    var kept := if hasInput then input[..n] else [];
    var dropped := frames - n;
    Capture(c.queue + kept, c.capacity,
            CaptureTally(c.tally.received + frames, c.tally.written + n, c.tally.dropped + dropped,
                         c.tally.overrunCallbacks + (if dropped != 0 then 1 else 0), c.tally.overrunFrames + dropped),
            c.heard + kept, c.taken)
  }

  function AfterRead(c: Capture, limit: nat): Capture {
    var n := Min(limit, |c.queue|);
    c.(queue := c.queue[n..], taken := c.taken + c.queue[..n])
  }

  // --------------------------------------------------------------------- histories

  datatype FlowStep =
    | QueueStep(samples: seq<Sample>)
    | GateStep
    | CallbackStep(frames: nat, hasOutput: bool)

  function NextPlayback(p: Playback, step: FlowStep): Playback {
    match step
    case QueueStep(samples) => AfterQueue(p, samples)
    case GateStep => AfterGate(p)
    case CallbackStep(frames, hasOutput) => AfterCallback(p, frames, hasOutput)
  }

  function Flow(p: Playback, steps: seq<FlowStep>): Playback {
    if steps == [] then p else NextPlayback(Flow(p, steps[..|steps| - 1]), steps[|steps| - 1])
  }

  /** Where every accepted frame is, and what the counters say about it. */
  predicate Conserved(p: Playback) {
    var (t, h) := (p.tally, p.history);
    && h.queued == h.played + h.discarded + p.queue
    && (h.discarded != [] ==> p.gated)
    && t.delivered == |h.played| && t.discarded == |h.discarded|
    && t.requested == t.delivered + t.zeroFilled
    && t.underrunFrames <= t.zeroFilled && (p.gated || t.underrunFrames == t.zeroFilled)
    && t.underrunCallbacks <= t.underrunFrames
    && |p.queue| <= p.capacity
  }

  lemma NextConserves(p: Playback, step: FlowStep)
    requires Conserved(p)
    ensures Conserved(NextPlayback(p, step))
  {
    match step
    case QueueStep(samples) =>
    case GateStep =>
    case CallbackStep(frames, hasOutput) => CallbackConserves(p, frames, hasOutput);
  }

  lemma CallbackConserves(p: Playback, frames: nat, hasOutput: bool)
    requires Conserved(p)
    ensures Conserved(AfterCallback(p, frames, hasOutput))
  {
    var n := Taken(p, frames, hasOutput);
    assert p.queue == p.queue[..n] + p.queue[n..];
    if !p.gated {
      assert p.history.discarded == [];
    }
  }

  /** Over any history of queue, gate and callback steps the counters account for every
      frame: accepted = delivered + discarded + still queued, and requested = delivered +
      zero-filled. Samples are delivered in the order in which they were queued, and those
      discarded by the gate come after all delivered ones. */
  lemma {:induction false} FlowConserves(capacity: nat, steps: seq<FlowStep>)
    ensures var p := Flow(NewPlayback(capacity), steps);
            && Conserved(p)
            && |p.history.queued| == p.tally.delivered + p.tally.discarded + |p.queue|
            && p.tally.requested == p.tally.delivered + p.tally.zeroFilled
  {
    if steps != [] {
      FlowConserves(capacity, steps[..|steps| - 1]);
      NextConserves(Flow(NewPlayback(capacity), steps[..|steps| - 1]), steps[|steps| - 1]);
    }
  }

  lemma JoinedTake(p: Playback, m: nat, n: nat)
    ensures var a := AfterCallback(p, m, true);
            var (i, j) := (Taken(p, m, true), Taken(a, n, true));
            && Taken(p, m + n, true) == i + j && (j > 0 ==> i == m)
            && p.queue[..i + j] == p.queue[..i] + a.queue[..j] && a.queue[j..] == p.queue[i + j..]
  {
  }

  /** Two callbacks in a row deliver what one callback of their joint length delivers;
      only the number of callbacks that ran dry can differ. */
  lemma CallbacksJoin(p: Playback, m: nat, n: nat)
    ensures var (split, whole) := (AfterCallback(AfterCallback(p, m, true), n, true), AfterCallback(p, m + n, true));
            && split.queue == whole.queue && split.gated == whole.gated
            && split.tally == whole.tally.(underrunCallbacks := split.tally.underrunCallbacks)
            && split.history == whole.history
  {
    JoinedTake(p, m, n);
    var a := AfterCallback(p, m, true);
    var (i, j) := (Taken(p, m, true), Taken(a, n, true));
    assert a.queue == p.queue[i..] && a.gated == p.gated;
    JoinedHistory(p, m, n, i, j);
  }

  lemma JoinSamples(a: seq<Sample>, b: seq<Sample>, c: seq<Sample>)
    ensures a + b + c == a + (b + c)
  {
  }

  lemma JoinZeros(m: nat, n: nat)
    ensures Zeros(m) + Zeros(n) == Zeros(m + n)
  {
  }

  /** Silence in between is no silence if there is none, or if nothing but silence follows. */
  lemma JoinTail(sent: seq<Sample>, a: seq<Sample>, gap: seq<Sample>, b: seq<Sample>, rest: seq<Sample>)
    requires gap == [] || b == []
    ensures sent + a + gap + b + rest == sent + (a + b) + (gap + rest)
  {
  }

  lemma JoinedHistory(p: Playback, m: nat, n: nat, i: nat, j: nat)
    requires i == Taken(p, m, true) && i + j == Taken(p, m + n, true)
    requires j == Taken(AfterCallback(p, m, true), n, true) && (j > 0 ==> i == m)
    requires p.queue[..i + j] == p.queue[..i] + AfterCallback(p, m, true).queue[..j]
    ensures CallbackHistory(AfterCallback(p, m, true), n, true) == CallbackHistory(p, m + n, true)
  {
    hide Taken, Zeros;
    var (a, h) := (AfterCallback(p, m, true), p.history);
    var (first, second) := (p.queue[..i], a.queue[..j]);
    JoinSamples(if p.gated then h.discarded else h.played, first, second);
    if p.gated {
      JoinSamples(h.sent, Zeros(m), Zeros(n));
      JoinZeros(m, n);
    } else if j == 0 {
      JoinZeros(m - i, n);
      JoinTail(h.sent, first, Zeros(m - i), second, Zeros(n));
    } else {
      JoinTail(h.sent, first, [], second, Zeros(n - j));
    }
  }

  /** The gate is one-way: from its closing on, the device is sent only zeros, nothing is
      accepted, and what is discarded was accepted before. */
  lemma {:induction false} GateSilences(p: Playback, steps: seq<FlowStep>)
    requires p.gated
    ensures var q := Flow(p, steps);
            && q.gated && q.history.queued == p.history.queued && q.history.played == p.history.played
            && p.history.sent <= q.history.sent
            && forall i :: |p.history.sent| <= i < |q.history.sent| ==> q.history.sent[i] == 0.0
  {
    if steps != [] {
      GateSilences(p, steps[..|steps| - 1]);
    }
  }

  // ----------------------------------------------------------------------- capture

  datatype CaptureStep =
    | CaptureCallback(frames: nat, hasInput: bool, input: seq<Sample>)
    | ReadStep(limit: nat)

  function NextCapture(c: Capture, step: CaptureStep): Capture {
    match step
    case CaptureCallback(frames, hasInput, input) =>
      if hasInput && |input| != frames then c else AfterCapture(c, frames, hasInput, input)
    case ReadStep(limit) => AfterRead(c, limit)
  }

  function CaptureFlow(c: Capture, steps: seq<CaptureStep>): Capture {
    if steps == [] then c else NextCapture(CaptureFlow(c, steps[..|steps| - 1]), steps[|steps| - 1])
  }

  /** Captured = written + dropped over any history, written samples are read in order, and
      an overrun is counted exactly for the dropped frames. */
  lemma {:induction false} CaptureConserves(capacity: nat, steps: seq<CaptureStep>)
    ensures var c := CaptureFlow(NewCapture(capacity), steps);
            && c.tally.received == c.tally.written + c.tally.dropped
            && c.tally.written == |c.heard| && c.heard == c.taken + c.queue
            && c.tally.overrunFrames == c.tally.dropped && |c.queue| <= c.capacity == capacity
            && (c.tally.overrunCallbacks == 0 <==> c.tally.dropped == 0)
  {
    hide NextCapture;
    if steps != [] {
      CaptureConserves(capacity, steps[..|steps| - 1]);
      StepConserves(CaptureFlow(NewCapture(capacity), steps[..|steps| - 1]), steps[|steps| - 1]);
    }
  }

  predicate CaptureConserved(c: Capture) {
    && c.tally.received == c.tally.written + c.tally.dropped
    && c.tally.written == |c.heard| && c.heard == c.taken + c.queue
    && c.tally.overrunFrames == c.tally.dropped && |c.queue| <= c.capacity
    && (c.tally.overrunCallbacks == 0 <==> c.tally.dropped == 0)
  }

  lemma StepConserves(c: Capture, step: CaptureStep)
    requires CaptureConserved(c)
    ensures CaptureConserved(NextCapture(c, step)) && NextCapture(c, step).capacity == c.capacity
  {
    if step.ReadStep? {
      var n := Min(step.limit, |c.queue|);
      assert c.queue == c.queue[..n] + c.queue[n..];
    }
  }

  /** Two capture callbacks in a row keep what one callback of their joint length keeps. */
  lemma CapturesJoin(c: Capture, first: seq<Sample>, second: seq<Sample>)
    ensures var split := AfterCapture(AfterCapture(c, |first|, true, first), |second|, true, second);
            var whole := AfterCapture(c, |first| + |second|, true, first + second);
            && split.queue == whole.queue && split.heard == whole.heard
            && split.tally == whole.tally.(overrunCallbacks := split.tally.overrunCallbacks)
  {
    var a := AfterCapture(c, |first|, true, first);
    var (i, j) := (Kept(c, |first|, true), Kept(a, |second|, true));
    assert Kept(c, |first| + |second|, true) == i + j;
    assert (first + second)[..i + j] == first[..i] + second[..j];
  }
}
