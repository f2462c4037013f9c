/** The whole sending path: coordinator, audio endpoint and rendered source together. */
module LiveTransmission {
  import opened Tone
  import opened ToneRenderer
  import opened RenderedSource
  import TransmitWorld
  import TransmitTypes
  import TransmitCoordinator
  import TransmitDelivery
  import AudioFlow
  import AudioStream
  import DeviceChannel

  /** A completed session of a tone-event source over an audio-stream endpoint has sent the
      device every rendered sample times the gain, once, in order and without a gap, with
      silence around; each event sounds for exactly its own frames. */
  lemma DeviceHearsTransmission(s: TransmitWorld.Shared, request: TransmitTypes.TransmitRequest,
                                result: TransmitCoordinator.TransmitResult, capacity: nat, o: Oscillator,
                                events: seq<ToneEvent>, rate: nat, table: seq<nat>, gain: real)
    returns (lead: nat, tail: nat)
    requires ValidEvents(events) && Renderable(events, rate) && IsTable(table, events, rate)
    requires TransmitCoordinator.Report(s, request, Amplified(Reference(o, events, table), gain), result)
    requires result.outcome.OutcomeCompleted? && TransmitDelivery.Agrees(s.log, capacity)
    ensures TransmitDelivery.EndpointAfter(s.log, capacity).stream.history.sent
         == AudioFlow.Zeros(lead) + Amplified(Reference(o, events, table), gain) + AudioFlow.Zeros(tail)
    ensures |Reference(o, events, table)| == Boundary(events, rate)
    ensures OwnFrames(o, events, rate, table)
  {
    hide TransmitCoordinator.Report, Boundary, TransmitDelivery.Agrees, PhaseAt, TransmitDelivery.EndpointAfter;
    assert events[..|events|] == events;
    RendersExactly(o, events, rate, table, []);
    lead, tail := TransmitDelivery.CompletedIsDelivered(s, request, Amplified(Reference(o, events, table), gain), result, capacity);
    forall frame: nat, i: nat | frame < table[|table| - 1] && i < |events| && Sounds(events, rate, i, frame)
      ensures Owner(table, frame) == i
    {
      OwnsExactly(table, events, rate, i, frame);
    }
  }

  /** ... and finds the same on every carrying channel of its output buffers. */
  lemma ChannelCarriesTransmission(s: TransmitWorld.Shared, request: TransmitTypes.TransmitRequest,
                                   result: TransmitCoordinator.TransmitResult, capacity: nat, o: Oscillator,
                                   events: seq<ToneEvent>, rate: nat, table: seq<nat>, gain: real,
                                   buffers: seq<seq<real>>, l: AudioStream.Layout, channel: nat)
    returns (lead: nat, tail: nat)
    requires ValidEvents(events) && Renderable(events, rate) && IsTable(table, events, rate)
    requires TransmitCoordinator.Report(s, request, Amplified(Reference(o, events, table), gain), result)
    requires result.outcome.OutcomeCompleted? && TransmitDelivery.Agrees(s.log, capacity)
    requires DeviceChannel.Filled(s.log, capacity, buffers, l) && channel < l.channels && AudioStream.Carries(l, channel)
    ensures DeviceChannel.Heard(s.log, buffers, l, channel)
         == AudioFlow.Zeros(lead) + Amplified(Reference(o, events, table), gain) + AudioFlow.Zeros(tail)
  {
    hide TransmitCoordinator.Report, TransmitDelivery.Agrees, PhaseAt, TransmitDelivery.EndpointAfter, DeviceChannel.Filled;
    lead, tail := DeviceHearsTransmission(s, request, result, capacity, o, events, rate, table, gain);
    DeviceChannel.ChannelIsSent(s.log, capacity, buffers, l, channel);
  }

  /** Every frame that lies in an event's exact interval is rendered from that event. */
  predicate OwnFrames(o: Oscillator, events: seq<ToneEvent>, rate: nat, table: seq<nat>)
    requires ValidEvents(events) && |table| == |events| > 0
  {
    forall frame, i :: 0 <= frame < table[|table| - 1] && 0 <= i < |events| && Sounds(events, rate, i, frame) ==>
                         Reference(o, events, table)[frame] == o.emit(PhaseAt(o, events, table, frame), events[i].amplitude)
  }
}
