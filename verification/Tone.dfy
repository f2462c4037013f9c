/** Tone events (src/core/tone.cpp). Frequencies and amplitudes are exact reals. */
module Tone {
  import opened Timing

  datatype ToneEvent = ToneEvent(duration: Duration, frequency: real, amplitude: real)

  predicate ValidEvent(e: ToneEvent) {
    Normal(e.duration) && e.duration.numerator > 0 && e.frequency > 0.0 && 0.0 <= e.amplitude <= 1.0
  }

  predicate ValidEvents(events: seq<ToneEvent>) {
    forall i :: 0 <= i < |events| ==> ValidEvent(events[i])
  }

  /** The checks of the constructor. */
  function MakeEvent(duration: Duration, frequency: real, amplitude: real): (e: Checked<ToneEvent>)
    requires Normal(duration)
    ensures e.Exact? ==> ValidEvent(e.value)
  {
    if duration.numerator == 0 || frequency <= 0.0 || amplitude < 0.0 || amplitude > 1.0 then InvalidArgument
    else Exact(ToneEvent(duration, frequency, amplitude))
  }

  lemma Associate(a: seq<ToneEvent>, b: seq<ToneEvent>, c: seq<ToneEvent>)
    ensures a + b + c == a + (b + c)
  {
  }
}
