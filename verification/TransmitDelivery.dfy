/** The coordinator and the audio endpoint together: what a completed session has sent to
    the device when its endpoint is an AudioStreamTransmitEndpoint. */
module TransmitDelivery {
  import opened TransmitLog
  import opened TransmitWorld
  import opened TransmitTypes
  import opened TransmitCoordinator
  import opened TransmitOrder
  import opened AudioFlow
  import opened RenderedTransmit

  /** The effect of one event of the session's log on the endpoint. */
  function EndpointStep(e: Endpoint, event: Event): Endpoint {
    match event
    case Prefilled(frames, ok) => AfterPrefill(e, frames)
    case Queued(offered, accepted) => AfterSignal(e, offered)
    case SignalFinished => AfterFinish(e)
    case Gated => AfterSignalGate(e)
    case DeviceCallback(frames, hasOutput) => AfterDevice(e, frames, hasOutput)
    case _ => e
  }

  /** The endpoint after a log, starting from a new stream. */
  function EndpointAfter(log: seq<Event>, capacity: nat): Endpoint {
    if log == [] then NewEndpoint(capacity) else EndpointStep(EndpointAfter(log[..|log| - 1], capacity), log[|log| - 1])
  }

  /** The event reports what the endpoint answers. A backend fault may be reported at any
      time; a fault-free status may not hide the endpoint's own faults. */
  predicate Answers(e: Endpoint, event: Event) {
    && (event.Queued? ==> event.accepted == TakesSignal(e, |event.offered|))
    && (event.StatusRead? ==>
          && event.status.isDrained == StatusOf(e).isDrained
          && (event.status.fault.NoFault? ==> StatusOf(e).fault.NoFault?))
  }

  predicate Agrees(log: seq<Event>, capacity: nat) {
    log != [] ==> Agrees(log[..|log| - 1], capacity) && Answers(EndpointAfter(log[..|log| - 1], capacity), log[|log| - 1])
  }

  // -------------------------------------------------------------------- invariant

  predicate AllZero(x: seq<Sample>) {
    forall i :: 0 <= i < |x| ==> x[i] == 0.0
  }

  /** Silence followed by exactly the signal. */
  predicate Padded(x: seq<Sample>, signal: seq<Sample>) {
    && |signal| <= |x|
    && AllZero(x[..|x| - |signal|])
    && x[|x| - |signal|..] == signal
  }

  /** The signal, whole and unbroken, is on its way: part of it sent, the rest queued. The
      device has only been sent silence around it. */
  predicate OnItsWay(sent: seq<Sample>, queue: seq<Sample>, signal: seq<Sample>) {
    exists n :: 0 <= n <= |sent| && Padded(sent[..n] + queue, signal) && AllZero(sent[n..]) && (queue != [] ==> n == |sent|)
  }

  predicate Delivering(m: Monitor, e: Endpoint) {
    var (f, p) := (e.flags, e.stream);
    && f.finished == m.signal.finished && f.gated == m.signal.gated && p.gated == m.signal.gated
    && (!m.signal.gated ==>
          // until the signal starts there is only silence
          && (!f.started ==> m.signal.queued == [] && AllZero(p.history.sent) && AllZero(p.queue))
          && (f.started ==> m.keys > 0 && f.baseline <= p.tally.underrunFrames)
          // while it lasts there is no gap
          && (f.started && !f.finished && p.tally.underrunFrames == f.baseline ==>
                Padded(p.history.sent + p.queue, m.signal.queued))
          // an endpoint that saw no underrun has kept it whole
          && (f.started && f.finished && !f.hasUnderrun ==> OnItsWay(p.history.sent, p.queue, m.signal.queued))
          && (m.signal.cleanAfterFinish ==> !f.hasUnderrun)
          && (m.signal.drained ==> p.queue == []))
    && (f.hasUnderrun ==> f.finished)
    && (m.signal.cleanAfterFinish || m.signal.drained ==> m.signal.finished)
    && (m.signal.finished ==> m.keys > 0)
  }

  lemma PaddedGrows(x: seq<Sample>, signal: seq<Sample>, more: seq<Sample>)
    requires Padded(x, signal)
    ensures Padded(x + more, signal + more)
  {
    assert (x + more)[..|x| - |signal|] == x[..|x| - |signal|];
    assert (x + more)[|x| - |signal|..] == signal + more;
  }

  lemma SilenceIsPadded(x: seq<Sample>)
    requires AllZero(x)
    ensures Padded(x, [])
  {
    assert x[..|x|] == x;
  }

  lemma QueuedDelivers(m: Monitor, e: Endpoint, offered: seq<Sample>, accepted: nat)
    requires Delivering(m, e) && !OnQueued(m, offered, accepted).bad && accepted == TakesSignal(e, |offered|)
    ensures Delivering(OnQueued(m, offered, accepted), AfterSignal(e, offered))
  {
    var (f, p) := (e.flags, e.stream);
    var n := offered[..accepted];
    var after := AfterSignal(e, offered);
    assert !f.finished && !f.gated;
    assert after.stream.queue == p.queue + n;
    assert p.history.sent + (p.queue + n) == p.history.sent + p.queue + n;
    if f.started {
      if p.tally.underrunFrames == f.baseline {
        PaddedGrows(p.history.sent + p.queue, m.signal.queued, n);
      }
    } else if accepted > 0 {
      SilenceIsPadded(p.history.sent + p.queue);
      PaddedGrows(p.history.sent + p.queue, [], n);
      assert [] + n == n;
    } else {
      assert p.queue + n == p.queue;
    }
  }

  lemma FinishDelivers(m: Monitor, e: Endpoint)
    requires Delivering(m, e) && !OnFinished(m).bad
    ensures Delivering(OnFinished(m), AfterFinish(e))
  {
    var (f, p) := (e.flags, e.stream);
    if f.started && p.tally.underrunFrames == f.baseline {
      var n := |p.history.sent|;
      assert p.history.sent[..n] == p.history.sent;
    }
  }

  /** A callback moves samples from the queue to the device without a gap, except after
      the last of them. */
  lemma MovedOn(p: Playback, signal: seq<Sample>, frames: nat)
    requires !p.gated && OnItsWay(p.history.sent, p.queue, signal)
    ensures var q := AfterCallback(p, frames, true); OnItsWay(q.history.sent, q.queue, signal)
  {
    var sent, t := p.history.sent, Taken(p, frames, true);
    assert t < |p.queue| ==> t == frames;
    var q := AfterCallback(p, frames, true);
    assert q.history.sent == sent + p.queue[..t] + Zeros(frames - t) && q.queue == p.queue[t..];
    hide AfterCallback, Padded, AllZero;
    var n :| 0 <= n <= |sent| && Padded(sent[..n] + p.queue, signal) && AllZero(sent[n..]) && (p.queue != [] ==> n == |sent|);
    hide OnItsWay;
    if p.queue == [] {
      assert p.queue[..t] == [] && sent + [] == sent;
      LongerTail(sent, n, frames);
      Witness(q.history.sent, q.queue, signal, n);
    } else {
      PartMoved(sent, p.queue, t, frames - t);
      assert sent[..n] == sent;
      Witness(q.history.sent, q.queue, signal, n + t);
    }
  }

  lemma LongerTail(sent: seq<Sample>, n: nat, frames: nat)
    requires n <= |sent| && AllZero(sent[n..])
    ensures (sent + Zeros(frames))[..n] == sent[..n] && AllZero((sent + Zeros(frames))[n..])
  {
  }

  lemma PartMoved(sent: seq<Sample>, queue: seq<Sample>, t: nat, missing: nat)
    requires t <= |queue| && (t < |queue| ==> missing == 0)
    ensures var now := sent + queue[..t] + Zeros(missing);
            && now[..|sent| + t] + queue[t..] == sent + queue && AllZero(now[|sent| + t..])
            && (queue[t..] != [] ==> |sent| + t == |now|)
  {
    assert queue == queue[..t] + queue[t..];
  }

  lemma Witness(sent: seq<Sample>, queue: seq<Sample>, signal: seq<Sample>, n: nat)
    requires n <= |sent| && Padded(sent[..n] + queue, signal) && AllZero(sent[n..]) && (queue != [] ==> n == |sent|)
    ensures OnItsWay(sent, queue, signal)
  {
    hide Padded;
  }

  lemma FullCallback(p: Playback, frames: nat)
    requires !p.gated
    ensures var q := AfterCallback(p, frames, true);
            && p.tally.underrunFrames <= q.tally.underrunFrames
            && (q.tally.underrunFrames == p.tally.underrunFrames ==>
                  q.history.sent + q.queue == p.history.sent + p.queue)
  {
    var t := Taken(p, frames, true);
    assert p.queue == p.queue[..t] + p.queue[t..];
    if t == frames {
      assert Zeros(0) == [];
    }
  }

  lemma CallbackDelivers(m: Monitor, e: Endpoint, frames: nat, hasOutput: bool)
    requires Delivering(m, e)
    ensures Delivering(m, AfterDevice(e, frames, hasOutput))
  {
    var (f, p) := (e.flags, e.stream);
    if !m.signal.gated {
      if !hasOutput {
        assert p.queue[0..] == p.queue;
      } else {
        FullCallback(p, frames);
        if f.started && f.finished && !f.hasUnderrun {
          MovedOn(p, m.signal.queued, frames);
        }
        if !f.started {
          var t := Taken(p, frames, true);
          assert AllZero(p.history.sent + p.queue[..t] + Zeros(frames - t));
        }
        hide OnItsWay, Padded;
      }
    }
  }

  lemma PrefillDelivers(m: Monitor, e: Endpoint, frames: nat)
    requires Delivering(m, e) && m.keys == 0
    ensures Delivering(m, AfterPrefill(e, frames))
  {
    assert m.signal.gated || !e.flags.started;
  }

  lemma GateDelivers(m: Monitor, e: Endpoint)
    requires Delivering(m, e)
    ensures Delivering(m.(signal := m.signal.(gated := true)), AfterSignalGate(e))
  {
    hide OnItsWay, Padded;
  }

  lemma StatusDelivers(m: Monitor, e: Endpoint, status: AudioStatus)
    requires Delivering(m, e) && status.isDrained == StatusOf(e).isDrained
    requires status.fault.NoFault? ==> StatusOf(e).fault.NoFault?
    ensures Delivering(OnStatus(m, status), e)
  {
    hide OnItsWay, Padded;
  }

  /** An event that touches neither the endpoint nor the monitor's view of the signal. */
  lemma OtherDelivers(m: Monitor, e: Endpoint, event: Event)
    requires Delivering(m, e)
    requires !event.Prefilled? && !event.Queued? && !event.SignalFinished? && !event.Gated? && !event.DeviceCallback?
    requires !event.StatusRead?
    ensures Delivering(Step(m, event), e)
  {
    OtherSignal(m, event);
    hide OnItsWay, Padded, Step;
  }

  lemma OtherSignal(m: Monitor, event: Event)
    requires !event.Queued? && !event.SignalFinished? && !event.Gated? && !event.StatusRead?
    ensures Step(m, event).signal == m.signal && m.keys <= Step(m, event).keys
  {
    if event.Provider? {
      ProviderSignal(m, event.who, event.action, event.result);
    }
  }

  lemma ProviderSignal(m: Monitor, who: Actor, action: Ptt.PttAction, r: Ptt.PttOperationResult)
    ensures OnProvider(m, who, action, r).signal == m.signal && m.keys <= OnProvider(m, who, action, r).keys
  {
    hide MayKey, DangerOnKey;
  }

  lemma PrefillStep(m: Monitor, e: Endpoint, event: Event)
    requires Delivering(m, e) && event.Prefilled? && !Step(m, event).bad
    ensures Delivering(Step(m, event), EndpointStep(e, event))
  {
    PrefillDelivers(m, e, event.frames);
    var n := Step(m, event);
    assert n.signal == m.signal && n.keys == m.keys;
    hide OnItsWay, Padded, Step;
  }

  lemma StepDelivers(m: Monitor, e: Endpoint, event: Event)
    requires Delivering(m, e) && !Step(m, event).bad && Answers(e, event)
    ensures Delivering(Step(m, event), EndpointStep(e, event))
  {
    hide Delivering;
    match event
    case Prefilled(frames, ok) => PrefillStep(m, e, event);
    case Queued(offered, accepted) => QueuedDelivers(m, e, offered, accepted);
    case SignalFinished => FinishDelivers(m, e);
    case Gated => GateDelivers(m, e);
    case DeviceCallback(frames, hasOutput) => CallbackDelivers(m, e, frames, hasOutput);
    case StatusRead(status) => StatusDelivers(m, e, status);
    case _ => OtherDelivers(m, e, event);
  }

  lemma {:induction false} LogDelivers(log: seq<Event>, capacity: nat)
    requires !Watch(log).bad && Agrees(log, capacity)
    ensures Delivering(Watch(log), EndpointAfter(log, capacity))
  {
    hide Watch, Step, Delivering, Answers;
    if log == [] {
      WatchNothing();
      NewDelivers(capacity);
    } else {
      var prior := log[..|log| - 1];
      WatchLast(log);
      BadStep(Watch(prior), log[|log| - 1]);
      LogDelivers(prior, capacity);
      StepDelivers(Watch(prior), EndpointAfter(prior, capacity), log[|log| - 1]);
    }
  }

  lemma NewDelivers(capacity: nat)
    ensures Delivering(FRESH, NewEndpoint(capacity))
  {
  }

  /** A completed session over an endpoint that answers as AudioStreamTransmitEndpoint does
      has sent the device silence, then the source's samples, all of them, once, in order
      and without a gap, then silence. */
  lemma CompletedIsDelivered(s: Shared, request: TransmitRequest, samples: seq<Sample>, result: TransmitResult,
                             capacity: nat)
    returns (lead: nat, tail: nat)
    requires Report(s, request, samples, result) && result.outcome.OutcomeCompleted?
    requires samples != [] && Agrees(s.log, capacity)
    ensures EndpointAfter(s.log, capacity).stream.history.sent == Zeros(lead) + samples + Zeros(tail)
  {
    hide Watch, Agrees, EndpointAfter, Inv, Report, Delivering, Padded, AllZero;
    CompletedSignal(s, request, samples, result);
    LogDelivers(s.log, capacity);
    var e := EndpointAfter(s.log, capacity);
    lead, tail := DrainedShape(MonitorOf(s), e, samples);
  }

  lemma DrainedShape(m: Monitor, e: Endpoint, samples: seq<Sample>) returns (lead: nat, tail: nat)
    requires Delivering(m, e) && m.signal == TransmitLog.Signal(samples, false, true, true, true) && samples != []
    ensures e.stream.history.sent == Zeros(lead) + samples + Zeros(tail)
  {
    var sent := e.stream.history.sent;
    assert OnItsWay(sent, [], samples);
    hide Padded, AllZero;
    var n :| 0 <= n <= |sent| && Padded(sent[..n] + [], samples) && AllZero(sent[n..]);
    assert sent[..n] + [] == sent[..n];
    PaddedShape(sent, samples, n);
    lead, tail := n - |samples|, |sent| - n;
  }

  lemma CompletedSignal(s: Shared, request: TransmitRequest, samples: seq<Sample>, result: TransmitResult)
    requires Report(s, request, samples, result) && result.outcome.OutcomeCompleted?
    ensures MonitorOf(s).signal == TransmitLog.Signal(samples, false, true, true, true) && !MonitorOf(s).bad
  {
    hide Watch;
  }

  lemma PaddedShape(sent: seq<Sample>, signal: seq<Sample>, n: nat)
    requires n <= |sent| && Padded(sent[..n], signal) && AllZero(sent[n..])
    ensures |signal| <= n && sent == Zeros(n - |signal|) + signal + Zeros(|sent| - n)
  {
    var k := n - |signal|;
    assert sent == sent[..n][..k] + sent[..n][k..] + sent[n..];
    assert sent[..n][..k] == Zeros(k);
    assert sent[n..] == Zeros(|sent| - n);
  }
}
