/** What a device finds on each channel of its output buffers over a whole session. */
module DeviceChannel {
  import opened TransmitLog
  import opened AudioStream
  import RenderedTransmit
  import TransmitWorld
  import TransmitTypes
  import TransmitCoordinator
  import TransmitDelivery

  predicate FillsBuffer(e: Event) {
    e.DeviceCallback? && e.hasOutput
  }

  /** The buffers of the log's callbacks, in order, each filled as the callback fills it. */
  predicate Filled(log: seq<Event>, capacity: nat, buffers: seq<seq<Sample>>, l: Layout)
    decreases |log|
  {
    if log == [] then buffers == []
    else
      var prior, last := log[..|log| - 1], log[|log| - 1];
      if FillsBuffer(last) then
        && buffers != [] && Filled(prior, capacity, buffers[..|buffers| - 1], l)
        && last.frames * l.channels <= |buffers[|buffers| - 1]|
        && var signal := AudioFlow.Signal(TransmitDelivery.EndpointAfter(prior, capacity).stream, last.frames);
           Shows(buffers[|buffers| - 1], signal, last.frames, l)
      else Filled(prior, capacity, buffers, l)
  }

  /** One channel of all buffers. */
  function Heard(log: seq<Event>, buffers: seq<seq<Sample>>, l: Layout, channel: nat): seq<Sample>
    decreases |log|
  {
    if log == [] then []
    else
      var prior, last := log[..|log| - 1], log[|log| - 1];
      if FillsBuffer(last) && buffers != [] then
        Heard(prior, buffers[..|buffers| - 1], l, channel)
        + SelectedInput(buffers[|buffers| - 1], last.frames, l.(selected := channel))
      else Heard(prior, buffers, l, channel)
  }

  lemma SentByCallbacks(e: RenderedTransmit.Endpoint, event: Event)
    requires !FillsBuffer(event)
    ensures TransmitDelivery.EndpointStep(e, event).stream.history.sent == e.stream.history.sent
  {
  }

  lemma SameShown(buffer: seq<Sample>, signal: seq<Sample>, frames: nat, l: Layout, channel: nat)
    requires Shows(buffer, signal, frames, l) && Carries(l, channel)
    ensures Shows(buffer, signal, frames, l.(selected := channel))
  {
    hide Cell;
  }

  /** A carrying channel has all that was sent, over any log. */
  lemma {:induction false} ChannelIsSent(log: seq<Event>, capacity: nat, buffers: seq<seq<Sample>>, l: Layout, channel: nat)
    requires Filled(log, capacity, buffers, l) && channel < l.channels && Carries(l, channel)
    ensures Heard(log, buffers, l, channel) == TransmitDelivery.EndpointAfter(log, capacity).stream.history.sent
    decreases |log|
  {
    hide Shows, SelectedInput, TransmitDelivery.EndpointStep, Carries;
    if log == [] {
      NothingSent(capacity);
    } else {
      var prior, last := log[..|log| - 1], log[|log| - 1];
      var e := TransmitDelivery.EndpointAfter(prior, capacity);
      if FillsBuffer(last) {
        var buffer := buffers[|buffers| - 1];
        ChannelIsSent(prior, capacity, buffers[..|buffers| - 1], l, channel);
        SameShown(buffer, AudioFlow.Signal(e.stream, last.frames), last.frames, l, channel);
        BufferIsSent(e.stream, buffer, last.frames, l.(selected := channel));
        CallbackStep(e, last);
      } else {
        ChannelIsSent(prior, capacity, buffers, l, channel);
        SentByCallbacks(e, last);
      }
    }
  }

  lemma CallbackStep(e: RenderedTransmit.Endpoint, event: Event)
    requires FillsBuffer(event)
    ensures TransmitDelivery.EndpointStep(e, event).stream == AudioFlow.AfterCallback(e.stream, event.frames, true)
  {
  }

  lemma NothingSent(capacity: nat)
    ensures TransmitDelivery.EndpointAfter([], capacity).stream.history.sent == []
  {
  }

  /** ... and every other channel is silent. */
  lemma {:induction false} OthersAreSilent(log: seq<Event>, capacity: nat, buffers: seq<seq<Sample>>, l: Layout, channel: nat)
    requires Filled(log, capacity, buffers, l) && channel < l.channels && !Carries(l, channel)
    ensures TransmitDelivery.AllZero(Heard(log, buffers, l, channel))
    decreases |log|
  {
    hide Shows, SelectedInput, Carries;
    if log != [] {
      var prior, last := log[..|log| - 1], log[|log| - 1];
      if FillsBuffer(last) {
        var buffer := buffers[|buffers| - 1];
        OthersAreSilent(prior, capacity, buffers[..|buffers| - 1], l, channel);
        var signal := AudioFlow.Signal(TransmitDelivery.EndpointAfter(prior, capacity).stream, last.frames);
        SilentInput(buffer, signal, last.frames, l, channel);
      } else {
        OthersAreSilent(prior, capacity, buffers, l, channel);
      }
    }
  }

  lemma SilentInput(buffer: seq<Sample>, signal: seq<Sample>, frames: nat, l: Layout, channel: nat)
    requires frames * l.channels <= |buffer| && Shows(buffer, signal, frames, l) && channel < l.channels && !Carries(l, channel)
    ensures TransmitDelivery.AllZero(SelectedInput(buffer, frames, l.(selected := channel)))
  {
    hide Cell;
    forall f | 0 <= f < frames ensures SelectedInput(buffer, frames, l.(selected := channel))[f] == 0.0 {
      CellBound(f, channel, frames, l.channels);
    }
  }

  /** On every carrying channel the device of a completed session finds silence, the samples
      of the source, all of them, once, in order and without a gap, then silence. */
  lemma CompletedOnChannel(s: TransmitWorld.Shared, request: TransmitTypes.TransmitRequest, samples: seq<Sample>,
                           result: TransmitCoordinator.TransmitResult, capacity: nat, buffers: seq<seq<Sample>>, l: Layout,
                           channel: nat)
    returns (lead: nat, tail: nat)
    requires TransmitCoordinator.Report(s, request, samples, result) && result.outcome.OutcomeCompleted? && samples != []
    requires TransmitDelivery.Agrees(s.log, capacity) && Filled(s.log, capacity, buffers, l)
    requires channel < l.channels && Carries(l, channel)
    ensures Heard(s.log, buffers, l, channel) == AudioFlow.Zeros(lead) + samples + AudioFlow.Zeros(tail)
  {
    hide TransmitCoordinator.Report, TransmitDelivery.Agrees, Filled, Heard, TransmitDelivery.EndpointAfter;
    lead, tail := TransmitDelivery.CompletedIsDelivered(s, request, samples, result, capacity);
    ChannelIsSent(s.log, capacity, buffers, l, channel);
  }
}
