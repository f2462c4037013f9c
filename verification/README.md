# Scanline SSTV, verified

A Dafny model of the parts of Scanline SSTV where a mistake would leave a transmitter keyed, lose
samples, drift in time or corrupt a record, with proofs of what those parts promise. `dafny verify
dfyconfig.toml` checks everything.

## What is modelled

**Fail-safe transmission** (`Ptt`, `TransmitLog`, `TransmitWorld`, `PttSupervision`, `TransmitTypes`,
`TransmitSession`, `TransmitCoordinator`, `TransmitOrder`, `TransmitHazard`, `TransmitScenario`).
`TransmitCoordinator.run`, `PttSupervisor`, `PttWatchdog` and `PttLease` are imperative Dafny over a shared
`World`. Before every action of the run thread an arbitrary number of environment steps happens: the clock advances, somebody
cancels, the device calls back, and the watchdog worker takes single steps of its own loop (loads,
stores, provider calls). Replies of the provider, the audio endpoint and the source are arbitrary. Every
provider call and every endpoint action is appended to a log; a *monitor* (`TransmitLog.Watch`) reads the
log and turns bad as soon as an action is out of order. `TransmitCoordinator.Run` proves that no
interleaving makes it bad, and the lemmas of `TransmitOrder` and `TransmitHazard` say what a log that is
not bad looks like, in terms of log positions only.

**The real-time sample path** (`SampleRing`, `RingInterleaving`, `AudioFlow`, `AudioStream`,
`AudioLifecycle`, `RenderedTransmit`, `TransmitDelivery`, `DeviceChannel`, `LiveTransmission`). The
lock-free ring is proved twice: as a class whose operations are sequential, and as a transition system in
which the producer, the consumer and a third observer take single loads, slot copies and stores in any
order. The uninterrupted steps of the second are the operations of the first. Above it stand the audio
callback, the control thread, the device lifecycle and the endpoint that detects underruns;
`TransmitDelivery` runs the endpoint along the log of a session, and `DeviceChannel` reads its buffers.

**Exact timing, rendering and encoding** (`Arithmetic`, `Timing`, `TimingGrid`, `Tone`, `ToneRenderer`,
`Vis`, `SequentialRgb`, `SequentialModes`, `ScanPlan`, `ColourDifference`, `Robot36`, `Pd120`, `FskId`,
`OfflineTx`, `RenderedSource`). Durations are pairs of 64-bit words with the overflow checks of the
source; their meaning is a real number of seconds. The renderer is an imperative class over an opaque
oscillator. Each encoder is proved against a receiver that knows only the schedule.

**Text and bytes** (`RigctldCodec`, `PttProviders`, `Utf8`, `WavWriter`, `WavInspector`, `HilJson`,
`HilPatch`, `HilEvidence`, `HilValidation`, `HilPublish`, `HilMarkdown`). Framers, parsers and printers as
functions on sequences with the loops of the source proved against them.

## What the proofs found

- A remembered hazard can be lost. If the watchdog obtains a definite unkey, the run thread then requests
  key, fails to confirm an unkey and records the hazard, and only then the watchdog records its earlier
  result, the safety record ends up safe. `TransmitHazard.AccountedExactly` says in log positions that this
  is the only way in which run thread and watchdog lose one; `HazardCanBeLost` that the order of steps does
  it from every state in which it can start; and `TransmitScenario.HazardIsLostOnce` plays a whole session,
  from its start to its report, in which it happens. If no key request falls between a watchdog's confirmed
  unkey and its record (`PairsUndivided`), no hazard is lost. A completed session needs no such assumption.
- A completed session may hold less than the configured post-audio tail: a failed heartbeat ends the wait,
  and the result of that wait is ignored (`src/app/transmit_coordinator.cpp:405-408`). The tail lasts its
  duration if and only if no heartbeat failed before that had passed (`RunContext.HoldTail` and, on the
  log, `TransmitHazard.CompletedTail`); `TransmitScenario.TailIsCutShort` is a completed session with a tail
  of two milliseconds instead of ten.
- A third thread that reads the ring's fill can be told that it is full although it is empty and never held
  more than one sample (`RingInterleaving.EmptyRingLooksFull`); `ObservedFill` says exactly when.
- Adding durations can report overflow although the exact sum fits (`Timing.SpuriousOverflow`);
  multiplication and division never do.
- The exclamation mark has the same FSK code as the end of an identifier (`FskId.EndCodeIsAmbiguous`).
- Patching a stage of an evidence record overwrites a build option or measurement map instead when the
  map's first key is `stage` and its value the stage's name; the result is then the text of no record
  (`HilPublish.PatchUpdates`). `OptionIsOverwritten` is a record that passes the validation and to which it
  happens.
- The Markdown table that is published beside it always gets `unknown` as the PTT certainty of the patched
  stage, whatever the JSON text says (`src/app/hil_evidence.cpp:949-951`); and an earlier text that holds the
  marker of the row takes the patch instead, as the certainty of an earlier stage does when it is the name
  of the stage (`HilMarkdown.RowUpdates`, `CertaintyTakes`, `RowIsTaken`).
- A session can report a cancellation that nobody asked for: a heartbeat that fails in the pre-key delay is
  reported as one (`src/app/transmit_coordinator.cpp:348-352`; `TransmitScenario.DelayIsCancelled` is such a
  session). There is no other way: without a cancellation, the log has a failed heartbeat
  (`TransmitHazard.FaultIsExplained`).
- Closing a running or faulted audio stream whose adapter refuses the stop request, but then stops and
  closes, leaves the stream opened over a closed adapter; this is the only way
  (`AudioLifecycle.ClosedExactly`), and the next close ends it (`RefusedRequestKeepsOpened`).

## Assumptions

Atomics are sequentially consistent. Ring positions and the clock do not wrap. A provider call is one
action with respect to other provider calls, as the supervisor's mutex makes it. A waiting thread takes at
least one nanosecond, and the watchdog worker is scheduled within an arbitrary but fixed `grace` after its
deadline. Sources return no more samples than the block they are given. A callback and a queue operation
are single steps with respect to each other. Samples, gains and frequencies are real numbers.

## Model

| member | source | states |
|---|---|---|
| PttSupervision.PttSupervisor.Execute | src/rig/ptt.cpp:65-92 | any environment steps happen before the call; then the request is refused without the provider when the deadline has passed or the attempt is zero, and otherwise is logged with the provider's reply, whose certainty is withdrawn if it came too late without error |
| PttSupervision.PttSupervisor.UnkeyWithRetries | src/rig/ptt.cpp:94-113 | makes at most the allowed attempts; reports a hazard exactly when none was confirmed; without a hazard after a key request, a definite unkey came after that request |
| PttSupervision.PttWatchdog.Arm | src/rig/ptt.cpp:166-185 | succeeds exactly for a positive lease; the expiry is then at least one lease after the call began and at most one lease after it ended |
| PttSupervision.PttWatchdog.Heartbeat | src/rig/ptt.cpp:187-199 | succeeds only if armed, not expired and before the expiry when it began, and then the expiry is at least a lease later than that; fails only without an armed lease that has time left, and then leaves the expiry alone; goes on record with its answer and time |
| PttSupervision.PttWatchdog.Finish | src/rig/ptt.cpp:201-208 | disarms when the outcome is settled, and neither loses a cancellation nor a session's account of its key request |
| PttSupervision.PttWatchdog.Join | src/rig/ptt.cpp:158-164 | a stop request always ends the worker, which first finishes a cleanup in progress, and what the session accounted for stays accounted for |
| PttSupervision.PttLease.MarkKeyAttempt | src/rig/ptt.cpp:283-289 | the lease is active and a hazard is on record before any key request |
| PttSupervision.PttLease.RecordKeyResult | src/rig/ptt.cpp:291-299 | gives the lease up exactly when the request certainly did not key, and then a definite unkey accounts for it |
| PttSupervision.PttLease.Release | src/rig/ptt.cpp:301-316 | unkeys once; stays active exactly with a hazard; the record agrees with the result; later calls only report the record |
| PttSupervision.OverdueWorkerAdvances | src/rig/ptt.cpp:230-245 | a worker past its deadline publishes the expiry or comes nearer to doing so with every step |
| PttSupervision.StoppedWorkerAdvances | src/rig/ptt.cpp:158-164 | a worker that was asked to stop comes nearer to its exit with every step |
| TransmitWorld.ApplyStepRely | src/rig/ptt.cpp:222-252 | every step of the watchdog worker, of the clock, of a canceller and of the device keeps the invariant (wake deadline not after the expiry, expiry flag set before cleaning up) and moves nothing that belongs to the run thread; the expiry never decreases and a published expiry stays |
| TransmitWorld.ApplyRely | src/rig/ptt.cpp:166-252 | the same for any number of steps in any order |
| TransmitTypes.FiniteSampleSource.Read | include/sstv/app/transmit_coordinator.hpp:100-107 | hands out its samples in order and never more than the block holds, or fails without moving |
| TransmitSession.RunContext.CheckControl | src/app/transmit_coordinator.cpp:268-285 | looks at cancellation, then the watchdog, then the endpoint; success means that the watchdog had not expired when the check began; the first fault it raises is a cancellation that was requested, an expiry that happened, or the fault that the endpoint reported, and it closes the gate |
| TransmitSession.RunContext.WaitPhase | src/app/transmit_coordinator.cpp:286-296 | terminates; success means that the whole duration passed without a fault or a failed heartbeat; failure without a fault means that a heartbeat failed just then |
| TransmitSession.RunContext.OpenAudio | src/app/transmit_coordinator.cpp:297-304 | opens once, on a confirmed unkeyed transmitter only |
| TransmitSession.RunContext.PrimeAudio | src/app/transmit_coordinator.cpp:305-315 | without a fault, audio was prefilled, primed and started in this order |
| TransmitSession.RunContext.ArmWatchdog | src/app/transmit_coordinator.cpp:316-335 | without a fault, the watchdog exists and is armed or already expired |
| TransmitSession.RunContext.KeyTransmitter | src/app/transmit_coordinator.cpp:336-347 | makes the one key request, with the hazard on record before it; no fault afterwards only if the reply is error-free and definitely keyed |
| TransmitSession.RunContext.HoldPreKeyDelay | src/app/transmit_coordinator.cpp:348-352 | a fault in the delay is a cancellation that was requested, an expiry, a fault of the endpoint, or a heartbeat that failed, which is reported as a cancellation; no signal is offered |
| TransmitSession.RunContext.AwaitSpace | src/app/transmit_coordinator.cpp:379-384 | the full-ring wait sends no heartbeat and extends no lease, takes time, and can succeed only before the expiry, so that it can be repeated only finitely often |
| TransmitSession.RunContext.QueueBlock | src/app/transmit_coordinator.cpp:371-389 | terminates even if the endpoint never accepts anything; the block is accepted whole, or the fault is a requested cancellation, an expiry of the watchdog, a fault that the endpoint reported or frames that it claimed beyond those offered; the accepted signal stays a prefix of what the source handed out, and at most one block of it is accepted after the watchdog expired |
| TransmitSession.RunContext.CheckAndHeartbeat | src/app/transmit_coordinator.cpp:356-360 | a successful heartbeat means that nothing was accepted after an expiry up to now |
| TransmitSession.RunContext.Transmit | src/app/transmit_coordinator.cpp:353-392 | without a fault, the endpoint accepted all samples of the source once and in order, and was told the end |
| TransmitSession.RunContext.Drain | src/app/transmit_coordinator.cpp:393-404 | without a fault, the endpoint reported itself fault-free and drained after the end of the signal |
| TransmitSession.RunContext.HoldTail | src/app/transmit_coordinator.cpp:405-408 | without a fault, the tail lasts its whole duration if and only if no heartbeat failed before it had passed |
| TransmitSession.RunContext.ReleaseLease | src/app/transmit_coordinator.cpp:409-423 | whenever an active lease exists it is released; afterwards a key request is accounted for by a definite unkey, a recorded hazard or an outdated watchdog record |
| TransmitSession.RunContext.StopAudio | src/app/transmit_coordinator.cpp:44-74 | requests the stop, stops and closes exactly once each, after the cleanup was put on record |
| TransmitSession.RunContext.Conclude | src/app/transmit_coordinator.cpp:409-451 | the outcome is completed only without fault and cancellation, and always if nobody cancelled, the watchdog did not expire and no step failed; it is hazardous exactly with a hazard on record when it is settled; a fault has its cause; the trace keeps its bound |
| TransmitCoordinator.TransmitCoordinator.Run | src/app/transmit_coordinator.cpp:171-452 | for every interleaving and all replies: no action out of order, an account of every key request, audio closed exactly once after the release, the accepted signal a prefix of the source of the reported length, at most one block of it late; completed means that all of it was accepted, drained and released, and the tail held unless a heartbeat failed; rejected exactly during another session, without an endpoint or for an invalid request; an admitted session completes if no hazard was remembered, nobody cancels, the watchdog does not expire and nothing fails; every error of a session under way has its cause, cancelled means that somebody asked for it, and hazardous agrees with the record unless an expired watchdog rewrote it since; a remembered hazard refuses the session before anything is opened |
| TransmitCoordinator.TransmitCoordinator.ConfirmUnkeyed | src/app/transmit_coordinator.cpp:236-254 | goes on only with a confirmed unkeyed transmitter, else with a hazard on record |
| TransmitCoordinator.TransmitCoordinator.RetryHazardCleanup | src/app/transmit_coordinator.cpp:471-479 | clears a hazard only after a definite unkey, and does nothing during a session |
| TransmitOrder.KeyedOnce | src/app/transmit_coordinator.cpp:336-347 | no two key requests in one session |
| TransmitOrder.KeyedAfterSetup | src/app/transmit_coordinator.cpp:236-335 | before a key request: a confirmation that PTT is unkeyed, and successful open, prefill, prime, start and arm, and no fault |
| TransmitOrder.SignalAfterKeyed | src/app/transmit_coordinator.cpp:343-377 | signal is offered only after an error-free, definitely keyed reply and never after a fault |
| TransmitOrder.LateFramesBound | src/app/transmit_coordinator.cpp:371-389 | everything accepted from an expiry on is bounded by the monitor's count of late frames, which Run bounds by one block |
| TransmitOrder.TailExactly | src/app/transmit_coordinator.cpp:286-296 | the tail that the monitor sees cut is one in which a heartbeat failed between its beginning and its end, before its duration had passed, and no other |
| TransmitOrder.UntroubledExactly | src/app/transmit_coordinator.cpp:171-452 | a session met no trouble if and only if no event of its log is a refusal, a failure or a reported fault |
| TransmitOrder.FaultReported | src/app/transmit_coordinator.cpp:279-283 | the endpoint fault that explains a session is the last one in its log |
| TransmitOrder.CausesExactly | src/app/transmit_coordinator.cpp:171-452 | the monitor holds a fault for caused if and only if the log has an event that the coordinator reports as that fault |
| TransmitOrder.StopAfterRelease | src/app/transmit_coordinator.cpp:410-430 | after a key request, audio is stopped only once the run thread's PTT cleanup is on record |
| TransmitOrder.UnkeyedHappened | src/rig/ptt.cpp:94-113 | the monitor sees a definite unkey after the key request if and only if a provider reply at or after it says so |
| TransmitOrder.StaleExactly | src/rig/ptt.cpp:246-248 | the monitor sees an outdated record last if and only if the log has a definite unkey of the watchdog, then a key request, then the watchdog's next record, and no record after that |
| TransmitOrder.UndividedNeverStale | src/rig/ptt.cpp:246-248 | if no key request falls between a watchdog's confirmed unkey and its record, no outdated record is ever written |
| TransmitHazard.AccountedExactly | src/rig/ptt.cpp:222-316 | a key request that no reply has answered since with a definite unkey leaves a hazard on record if and only if it is not the case that the last safety record is the watchdog's, of an unkey obtained before the request; both sides in log positions |
| TransmitHazard.HazardNeverLost | src/app/transmit_coordinator.cpp:336-451 | with undivided unkey-and-record pairs, every key request that reached the provider is followed by a definite unkey or leaves a hazard on record |
| TransmitHazard.CompletedIsUnkeyed | src/app/transmit_coordinator.cpp:436-450 | a completed session was keyed without error, obtained a definite unkey no earlier than the key request, and offered no signal before it |
| TransmitHazard.CompletedTail | src/app/transmit_coordinator.cpp:405-408 | in the log of a completed session, the tail ends at least its duration after it began if and only if no heartbeat failed in between before that time |
| TransmitHazard.FaultIsExplained | src/app/transmit_coordinator.cpp:255-435 | whatever fault a session reports, its log has the event that the fault stands for, or an expiry for a watchdog failure, or somebody asked for the cancellation; a failed heartbeat stands for a watchdog failure and, in the pre-key delay, for a cancellation |
| TransmitHazard.HazardCanBeLost | src/rig/ptt.cpp:246-248 | from any state in which the run thread may key while the watchdog is about to unkey, one order of steps loses the hazard |
| TransmitScenario.HazardIsLostOnce | src/rig/ptt.cpp:246-248 | from a new session with a valid policy, step by step to the joined watchdog: the session ends faulted as the coordinator reports it, the key request may have keyed, no unkey was confirmed since, and no hazard is on record |
| TransmitScenario.TailIsCutShort | src/app/transmit_coordinator.cpp:405-408 | from a new session with a valid policy to its end: a session completes although its tail of ten milliseconds ended after two |
| TransmitScenario.DelayIsCancelled | src/app/transmit_coordinator.cpp:348-352 | from a new session with a valid policy to its end: the session faults with the error of a cancellation, and nobody cancelled |
| SampleRing.SlotIsPosition | src/audio/sample_ring.cpp:45-62 | the two-part copy addresses the slot of each position modulo the capacity |
| SampleRing.FloatSpscRing.Push | src/audio/sample_ring.cpp:45-62 | appends as many of the samples as fit, in place, and says how many |
| SampleRing.FloatSpscRing.Pop | src/audio/sample_ring.cpp:64-80 | hands over the oldest samples and removes exactly those; the rest of the destination is untouched |
| SampleRing.FloatSpscRing.AvailableRead | src/audio/sample_ring.cpp:88-94 | the number of queued samples |
| SampleRing.FloatSpscRing.AvailableWrite | src/audio/sample_ring.cpp:96-100 | the remaining capacity |
| SampleRing.FloatSpscRing.Reset | src/audio/sample_ring.cpp:102-107 | the ring is empty |
| RingInterleaving.FirstInFirstOut | src/audio/sample_ring.cpp:45-80 | for every schedule of single loads, copies and stores: popped followed by queued is pushed, in order, and never more than the capacity is queued |
| RingInterleaving.TransfersDisjoint | src/audio/sample_ring.cpp:45-80 | slots being written and slots being read never coincide and lie inside the storage |
| RingInterleaving.PushRefinesQueue | src/audio/sample_ring.cpp:45-62 | the queue grows only when a push publishes, by what it took; how much that is was decided by the free space when it loaded the read position |
| RingInterleaving.PopRefinesQueue | src/audio/sample_ring.cpp:64-80 | the queue shrinks only when a pop releases, by the oldest samples, which are those it copied |
| RingInterleaving.PushAlone | src/audio/sample_ring.cpp:45-62 | the uninterrupted steps of a push do what FloatSpscRing.Push promises |
| RingInterleaving.PopAlone | src/audio/sample_ring.cpp:64-80 | the uninterrupted steps of a pop do what FloatSpscRing.Pop promises |
| RingInterleaving.ObservedFill | src/audio/sample_ring.cpp:30-37 | what availableRead tells when its two loads are apart: exact for producer and consumer, too large for a third thread if and only if the consumer overtook the first load and the ring is not full |
| RingInterleaving.EmptyRingLooksFull | src/audio/sample_ring.cpp:88-94 | a third thread can be told that an empty ring is full |
| AudioFlow.FlowConserves | src/audio/audio_stream.cpp:447-586 | over any history of queue, gate and callback steps: queued = delivered + discarded by the gate + ring fill, sample by sample and in order; requested = delivered + zero-filled; underruns are counted exactly |
| AudioFlow.CallbacksJoin | src/audio/audio_stream.cpp:549-576 | splitting a callback is invisible to device and ring |
| AudioFlow.GateSilences | src/audio/audio_stream.cpp:447-451 | after the gate closes the device is sent only zeros and nothing is accepted |
| AudioFlow.CaptureConserves | src/audio/audio_stream.cpp:591-618 | captured = written + dropped over any history, and what was written is read in order |
| AudioFlow.CapturesJoin | src/audio/audio_stream.cpp:595-604 | splitting a capture callback is invisible to the reader |
| AudioStream.AudioStream.QueuePlayback | src/audio/audio_stream.cpp:453-466 | accepts what fits, and nothing once the gate is closed |
| AudioStream.AudioStream.GatePlaybackSignal | src/audio/audio_stream.cpp:447-451 | closes the gate and changes nothing else |
| AudioStream.AudioStream.ReadCapture | src/audio/audio_stream.cpp:468-472 | hands over the oldest captured samples |
| AudioStream.AudioStream.PlayFrames | src/audio/audio_stream.cpp:535-590 | in chunks of any scratch size, the output buffer shows on the selected or all channels exactly the oldest queued samples, zeros elsewhere; all counters as in the one-step callback |
| AudioStream.AudioStream.CaptureFrames | src/audio/audio_stream.cpp:591-618 | in chunks of any scratch size, the selected input channel is appended to the ring as far as it fits |
| AudioStream.AudioStream.ProcessCallback | src/audio/audio_stream.cpp:528-620 | both of the above; a missing buffer of either direction is noted as a fault unless a reason was noted before |
| AudioStream.BufferIsSent | src/audio/audio_stream.cpp:549-576 | what the device finds on a carrying channel is what the flow model says was sent |
| AudioLifecycle.RingsResetQuietly | src/audio/audio_stream.cpp:251-445 | in every run over an adapter that may fail at any call, callbacks run only while the stream is running, stopping or faulted; so rings are never reset under a callback |
| AudioLifecycle.CloseReleases | src/audio/audio_stream.cpp:406-431 | after any run, one close over an adapter that no longer fails ends closed, without error and without callbacks |
| AudioLifecycle.CloseIsHonest | src/audio/audio_stream.cpp:406-431 | close reports success if and only if the stream ends closed, and then no callback runs |
| AudioLifecycle.StopIsHonest | src/audio/audio_stream.cpp:381-404 | after a successful stop no callback runs and the rings may be reset |
| AudioLifecycle.ClosedExactly | src/audio/audio_stream.cpp:406-431 | after any run, close leaves the stream opened if and only if a running or faulted stream was refused the stop request and then stopped and closed; and closed if and only if it was closed before or every call that was needed succeeded |
| AudioLifecycle.RefusedRequestKeepsOpened | src/audio/audio_stream.cpp:406-431 | a running or faulted stream whose stop request is refused is left opened over a closed adapter, with an error; the next close ends it |
| AudioLifecycle.AudioStreamControl.Open | src/audio/audio_stream.cpp:251-314 | every branch of opening: wrong state, bad selection, cancellation before and during, adapter failure, unfit facts |
| AudioLifecycle.AudioStreamControl.Prime | src/audio/audio_stream.cpp:316-337 | every branch of priming |
| AudioLifecycle.AudioStreamControl.Start | src/audio/audio_stream.cpp:339-359 | starts only primed and with the prefill in the ring |
| AudioLifecycle.AudioStreamControl.RequestStop | src/audio/audio_stream.cpp:361-379 | every branch of requesting a stop |
| AudioLifecycle.AudioStreamControl.Stop | src/audio/audio_stream.cpp:381-404 | every branch of stopping |
| AudioLifecycle.AudioStreamControl.Close | src/audio/audio_stream.cpp:406-431 | stops a stream that may be running, closes the adapter in any case, and reports the first error |
| AudioLifecycle.AudioStreamControl.Reset | src/audio/audio_stream.cpp:433-445 | empties both rings and opens the gate, or refuses and changes nothing |
| AudioLifecycle.AudioStreamControl.PollState | src/audio/audio_stream.cpp:474-485 | a noted fault reason faults the stream unless it is closed |
| RenderedTransmit.AudioStreamTransmitEndpoint.PrefillSilence | src/app/rendered_transmit.cpp:114-128 | queues the silence in chunks, failing exactly when it does not all fit |
| RenderedTransmit.AudioStreamTransmitEndpoint.Queue | src/app/rendered_transmit.cpp:143-153 | accepts what fits before the end and the gate, and remembers the underrun count at the first accepted sample |
| RenderedTransmit.AudioStreamTransmitEndpoint.FinishSignal | src/app/rendered_transmit.cpp:154-161 | keeps an underrun that happened before the end of the signal |
| RenderedTransmit.AudioStreamTransmitEndpoint.GateSignal | src/app/rendered_transmit.cpp:162-166 | closes the gate of the stream and of the endpoint |
| RenderedTransmit.AudioStreamTransmitEndpoint.Status | src/app/rendered_transmit.cpp:167-183 | reports a device fault, else an underrun during the signal; drained means ended and an empty ring |
| TransmitDelivery.LogDelivers | src/app/rendered_transmit.cpp:143-183 | along every log of a session, while no fault is reported, the device has been sent silence and then an unbroken beginning of the signal, the rest of which is queued |
| TransmitDelivery.CompletedIsDelivered | src/app/transmit_coordinator.cpp:353-404 | a completed session over such an endpoint sent the device silence, then all samples of the source once, in order, without a gap, then silence |
| DeviceChannel.ChannelIsSent | src/audio/audio_stream.cpp:535-590 | over any log, every carrying channel of the output buffers, read one after the other, has exactly what the flow model says was sent |
| DeviceChannel.OthersAreSilent | src/audio/audio_stream.cpp:535-590 | every other channel has only zeros |
| DeviceChannel.CompletedOnChannel | src/app/transmit_coordinator.cpp:353-404 | on every carrying channel the device of a completed session finds silence, all samples of the source once, in order, without a gap, then silence |
| LiveTransmission.DeviceHearsTransmission | src/app/rendered_transmit.cpp:23-262 | a completed session of a tone-event source sent the device exactly the rendered samples times the gain, each event on exactly its own frames |
| LiveTransmission.ChannelCarriesTransmission | src/app/rendered_transmit.cpp:23-262 | the same on every carrying channel of the output buffers |
| Timing.ProductBound | src/core/timing.cpp:23-32 | the division-based check detects exactly the products of more than 64 bits |
| Timing.MakeExact | src/core/timing.cpp:34-43 | construction keeps the value and ends in lowest terms |
| Timing.EqualSeconds | src/core/timing.cpp:63-68 | comparing the two words compares the rational numbers |
| Timing.PlusExact | src/core/timing.cpp:70-81 | + is the exact sum in lowest terms, and overflows exactly when a numerator over the least common denominator, their sum or that denominator exceeds 64 bits |
| Timing.LeastCommonMultiple | src/core/timing.cpp:70-81 | the common denominator of an addition is the least possible one |
| Timing.SpuriousOverflow | src/core/timing.cpp:70-81 | + can overflow although the exact sum is representable |
| Timing.TimesExact | src/core/timing.cpp:83-92 | * is exact and overflows exactly when no duration has the product |
| Timing.DividedExact | src/core/timing.cpp:94-104 | / is exact, refuses exactly zero, and overflows exactly when no duration has the quotient |
| Timing.SampleCountExact | src/core/timing.cpp:106-117 | the number of frames is the exact product rounded down |
| ToneRenderer.SampleBoundaryScheduler.Advance | src/core/timing.cpp:127-133 | adds exactly and rounds only the running sum; what remains after an overflow |
| Tone.MakeEvent | src/core/tone.cpp:12-26 | only valid events are constructed |
| ToneRenderer.BuildTable | src/core/tone_renderer.cpp:15-34 | entry i is the exact prefix sum times the rate rounded down; accepted if and only if the list is playable and no prefix overflows; overflow is reported exactly if the first obstacle is one |
| ToneRenderer.OwnsExactly | src/core/tone_renderer.cpp:54-75 | event i owns exactly the frames between the rounded-down exact ends of its interval |
| ToneRenderer.ToneRenderer.Render | src/core/tone_renderer.cpp:54-75 | continues the one-shot reference, phase included, exactly where the previous call stopped |
| ToneRenderer.RenderBlocks | src/core/tone_renderer.cpp:54-75 | calls with outputs of any sizes produce together what a single call produces |
| ToneRenderer.RendersExactly | src/core/tone_renderer.cpp:15-75 | no drift for any event list: the total is the exact duration times the rate rounded down, and each frame sounds with its own event's amplitude and carried phase |
| TimingGrid.PlusOnGrid | src/core/timing.cpp:70-81 | durations of whole tenths of microseconds add without overflow and stay such |
| TimingGrid.TotalOnGrid | src/core/timing.cpp:127-133 | the running sum of such a list does not overflow and is exact |
| Vis.MakeVisBits | src/core/vis.cpp:36-50 | the bits of the code, lowest first, with a parity bit that makes the ones even |
| Vis.VisRoundTrip | src/core/vis.cpp:52-71 | a receiver of the header's tones hears the code |
| Vis.ParityIsEven | src/core/vis.cpp:36-50 | the number of ones is even |
| Vis.VisUnits | src/core/vis.cpp:52-71 | the header lasts exactly 910 milliseconds |
| SequentialRgb.AppendSchedule | src/core/sequential_rgb.cpp:59-78 | appends the events of a line's schedule, pixel by pixel |
| SequentialRgb.Encode | src/core/sequential_rgb.cpp:132-162 | refuses exactly invalid descriptors, frames, amplitudes and unplayable schedules, else returns the reference event list |
| SequentialRgb.EncodedCount | src/core/sequential_rgb.cpp:90-100 | the event list has exactly the precomputed length |
| SequentialRgb.ReceivesPixel | src/core/sequential_rgb.cpp:59-78 | for every descriptor, a receiver driven only by the schedule hears every scanned component of every pixel |
| SequentialRgb.EncodingIsInjective | src/core/sequential_rgb.cpp:132-162 | if every channel is scanned on every line, no two frames have the same event list |
| SequentialRgb.DurationIsExact | src/core/sequential_rgb.cpp:172-185 | the independently computed duration is exactly the sum of the events |
| SequentialModes.EncoderAddsUp | src/core/sequential_rgb.cpp:132-185 | for every descriptor on the grid the sums also do not overflow and are equal as durations |
| SequentialModes.ModeEncodes | src/core/martin_m1.cpp:13-36 | Martin M1 and Scottie S1 encode every frame of their size into events that add up, and different frames differently |
| ColourDifference.CodesInRange | src/core/robot_36.cpp:71-106 | luma and difference numerators are strictly inside the clamps; codes stay in 16..234 and 16..239 |
| ColourDifference.RangeIsReached | src/core/robot_36.cpp:71-106 | the ends of these ranges are attained |
| ColourDifference.GreyIsNeutral | src/core/pd_120.cpp:80-116 | grey pixels have difference code 128 |
| Robot36.ConvertColour | src/core/robot_36.cpp:201-229 | fills luma and 2x2-averaged difference planes; refuses exactly odd sizes |
| Robot36.BlockInRange | src/core/robot_36.cpp:109-122 | averaged codes stay in 16..239 and grey blocks are neutral |
| Robot36.Encode | src/core/robot_36.cpp:231-253 | refuses exactly other sizes and amplitudes, else returns the reference event list |
| Robot36.ReceivesPlanes | src/core/robot_36.cpp:147-184 | a receiver hears on every line the luma of every pixel and the averaged difference of every block, and the separator tells whether it is the red or the blue one |
| Robot36.DurationAddsUp | src/core/robot_36.cpp:268-283 | every frame's events sum, without overflow, to the independently computed duration, 36.91 seconds |
| Pd120.ConvertColour | src/core/pd_120.cpp:231-259 | fills luma and row-averaged difference planes; refuses exactly odd heights |
| Pd120.RowsInRange | src/core/pd_120.cpp:118-126 | averaged codes stay in 16..239 and grey pairs are neutral |
| Pd120.Encode | src/core/pd_120.cpp:261-292 | refuses exactly other sizes and amplitudes, else returns the reference event list |
| Pd120.ReceivesPlanes | src/core/pd_120.cpp:151-191 | a receiver hears in every pair both luma rows and both averaged difference rows |
| Pd120.DurationAddsUp | src/core/pd_120.cpp:294-306 | every frame's events sum to the independently computed 127.01304 seconds |
| FskId.Validate | src/core/fsk_id.cpp:75-108 | accepts exactly one to nine supported characters that are not all spaces; else names the first unsupported position |
| FskId.UpperIsFixed | src/core/fsk_id.cpp:75-108 | a validated identifier validates as itself |
| FskId.Generate | src/core/fsk_id.cpp:110-142 | leader, header code, characters, end code and checksum as tones, with their exact total duration |
| FskId.SuffixIsHeard | src/core/fsk_id.cpp:44-142 | a receiver that knows the length hears every code, the characters and the checksum over them |
| FskId.EndCodeIsAmbiguous | src/core/fsk_id.cpp:56-62 | a receiver that stops at the first end code hears the identifier in full if and only if it has no exclamation mark |
| FskId.ChecksumDetects | src/core/fsk_id.cpp:124-133 | the checksum notices every change of one character |
| FskId.SuffixUnits | src/core/fsk_id.cpp:110-142 | a suffix lasts 918 milliseconds and 132 more for each character |
| OfflineTx.FindMode | src/core/mode_registry.cpp:13-77 | finds a built-in mode by its identifier, or none has it |
| OfflineTx.ModeAddsUp | src/core/offline_tx.cpp:20-34 | for all four modes and every frame the events add up, without overflow, to the published duration |
| OfflineTx.EncodeBase | src/core/offline_tx.cpp:36-93 | each error exactly when: unknown identifier, missing capability, wrong frame size, amplitude out of range; and else the mode's event list with its duration |
| OfflineTx.SuffixAddsUp | src/core/offline_tx.cpp:96-110 | appending any identifier keeps events and duration equal without overflow |
| OfflineTx.Encode | src/core/offline_tx.cpp:129-154 | with or without identifier, the events of the result sum exactly to its duration; the same errors exactly |
| RenderedSource.ToneEventSampleSource.Read | src/app/rendered_transmit.cpp:32-41 | hands out the next rendered samples times the gain, nothing once cancelled |
| RenderedSource.CheckEvents | src/app/rendered_transmit.cpp:238-247 | adds the events exactly and finds an amplitude that the gain would clip, unless the sum overflows before it |
| RenderedSource.CreateSource | src/app/rendered_transmit.cpp:227-262 | each rejection exactly when, so that a transmission whose events add up is never rejected for its duration; a created source hands out exactly the frames of the exact total |
| RigctldCodec.CollectLines | src/rig/rigctld_codec.cpp:33-50 | collects the complete lines, or finds a limit exceeded |
| RigctldCodec.InspectResponse | src/rig/rigctld_codec.cpp:82-115 | incomplete, complete or malformed |
| RigctldCodec.IntegerRoundTrip | src/rig/rigctld_codec.cpp:52-61 | every 32-bit integer reads back from its decimal text |
| RigctldCodec.DecidedStays | src/rig/rigctld_codec.cpp:82-115 | nothing complete or malformed can be continued: one more byte is malformed |
| RigctldCodec.PrefixFree | src/rig/rigctld_codec.cpp:82-115 | proper prefixes of a complete reply are incomplete without error, extensions are malformed |
| RigctldCodec.Parse | src/rig/rigctld_codec.cpp:117-132 | a reply is parsed exactly when it is complete |
| RigctldCodec.ParsesCode | src/rig/rigctld_codec.cpp:117-132 | parsing inverts printing of every acknowledgement and error code |
| RigctldCodec.ParsesState | src/rig/rigctld_codec.cpp:117-132 | parsing inverts printing of every PTT state |
| RigctldCodec.Receive | src/rig/loopback_tcp.cpp:167-197 | the receive loop returns a complete reply however it is cut into chunks, and gives up exactly when it must |
| RigctldCodec.AnyFragmentation | src/rig/loopback_tcp.cpp:167-197 | no chunk boundary before the end of a complete reply is decided |
| PttProviders.AnswersAreDefinite | src/rig/rigctld.cpp:92-110 | no refusal without an error and no readback of an unknown state, for both providers |
| PttProviders.PttProvider.ExecuteQuery | src/rig/rigctld.cpp:185-216 | one query; certainty exactly from a parsed reply |
| PttProviders.PttProvider.ExecuteSet | src/rig/rigctld.cpp:217-279 | certainty only from a readback after the command; error-free certainty if and only if the command was acknowledged and the readback matches |
| PttProviders.PttProvider.Execute | src/rig/flrig.cpp:147-264 | a definite certainty only if the last exchange was a query that parsed to that state; a key request is accepted only after acknowledgement and keyed readback |
| PttProviders.NothingActedUpon | src/rig/ptt.cpp:291-299 | a radio that ignores incomplete commands has not changed its state when the result says that it cannot have keyed |
| Utf8.RecognisersAgree | apps/cli/audio_text.cpp:13-61 | the two independently written recognisers differ only on control bytes |
| Utf8.ValidIsEncoded | src/rig/flrig_codec.cpp:258-285 | the validator accepts exactly the encodings of sequences of scalar values (section 3 of RFC 3629) |
| Utf8.DecodeInvertsEncode | src/rig/flrig_codec.cpp:258-285 | decoding inverts encoding |
| Utf8.IsValidUtf8 | src/rig/flrig_codec.cpp:258-285 | the loop decides validity |
| Utf8.EscapeText | apps/cli/audio_text.cpp:63-83 | the loop escapes as the recursion does |
| Utf8.EscapedIsPlain | apps/cli/audio_text.cpp:63-83 | escaped text is well-formed and has no C0 control or DEL bytes |
| Utf8.UnchangedExactly | apps/cli/audio_text.cpp:63-83 | text is left unchanged if and only if the flrig validator accepts it and it has no control bytes |
| Utf8.EscapingIsIdempotent | apps/cli/audio_text.cpp:63-83 | escaping twice is escaping once |
| Utf8.UnescapeInverts | apps/cli/audio_text.cpp:63-83 | text in which nothing looks like a written-out escape is recovered from its escaped form |
| Utf8.EscapingTellsApart | apps/cli/audio_text.cpp:63-83 | two such texts have the same escaped form if and only if they are the same |
| Utf8.EscapingForgets | apps/cli/audio_text.cpp:63-83 | the condition is needed: an invalid byte and its written-out escape look the same |
| WavWriter.MakeHeader | src/core/wav_writer.cpp:108-172 | the header array holds every field at its offset, little-endian |
| WavWriter.EmitBlock | src/core/wav_writer.cpp:235-241 | the byte loop writes the two's-complement bytes of every sample |
| WavWriter.PcmIsMonotone | src/core/wav_writer.cpp:175-189 | conversion keeps order, silence and the extremes |
| WavWriter.EmitFile | src/core/wav_writer.cpp:223-244 | block by block the file holds the whole rendering; refused exactly beyond the RIFF size |
| WavWriter.Write | src/core/wav_writer.cpp:208-248 | refuses exactly unsupported rates, events without a renderer and files beyond the RIFF size; a written file holds the exact number of frames of the rendered events |
| WavInspector.SampleRoundTrip | src/core/wav_inspector.cpp:232-241 | decoding inverts the writer's bytes |
| WavInspector.AnalyseSamples | src/core/wav_inspector.cpp:263-324 | block-wise analysis is the direct fold, and never overflows on a chunk |
| WavInspector.NeverOverflows | src/core/wav_inspector.cpp:243-261 | no accumulator check can fire on the samples of a chunk, whose size is a 32-bit word |
| WavInspector.ExtremesAreAttained | src/core/wav_inspector.cpp:263-324 | minimum and maximum occur and bound every sample |
| WavInspector.PeakAndClipping | src/core/wav_inspector.cpp:263-324 | the peak is the larger magnitude, clipping is counted exactly at the extreme codes |
| WavInspector.WalkChunks | src/core/wav_inspector.cpp:401-455 | the chunk walk with every refusal |
| WavInspector.Inspect | src/core/wav_inspector.cpp:326-466 | the rate and the fold over the data chunk, which lies inside the file, or the error of the walk, for every file |
| WavInspector.InspectsWhatWasWritten | src/core/wav_inspector.cpp:326-466 | inspecting a written file gives its rate, its number of frames and the statistics of exactly the samples written |
| HilJson.EscapeText | src/app/hil_evidence.cpp:74-98 | the loop escapes character by character |
| HilJson.EscapeRoundTrip | src/app/hil_evidence.cpp:74-98 | reading as in section 7 of RFC 8259 inverts escaping, for every string |
| HilJson.QuoteOnce | src/app/hil_evidence.cpp:101-105 | a quoted string is read in one way, whatever follows it |
| HilJson.PrintOnce | src/app/hil_evidence.cpp:101-145 | two printed documents with the same text are the same document: no string can pass for structure |
| HilJson.FindObjectEnd | src/app/hil_evidence.cpp:872-891 | the loop with its unsigned depth finds where the scan stops |
| HilJson.ScanStopsAtEnd | src/app/hil_evidence.cpp:872-891 | from an object's opening brace the scan stops exactly after its closing brace, for any strings in it and whatever follows |
| HilPatch.FindMarker | src/app/hil_evidence.cpp:932-933 | finds the first occurrence, or there is none |
| HilPatch.FindPrinted | src/app/hil_evidence.cpp:932-933 | in the text of any document the marker occurs first where the first object opens with the stage's name, and never inside a string |
| HilPatch.Patch | src/app/hil_evidence.cpp:931-941 | replaces the text from the marker to the end of its object, or reports that the stage is missing or the text truncated |
| HilPatch.PatchReplaces | src/app/hil_evidence.cpp:931-941 | patching the text of a document is replacing the object in the document |
| HilEvidence.StageNamesDiffer | src/app/hil_evidence.cpp:306-320 | different stages have different names |
| HilEvidence.RecordValid | src/app/hil_evidence.cpp:597-739 | every record with a printable gain has a document that the theorems apply to |
| HilPublish.WriteOptionalStringMap | src/app/hil_evidence.cpp:131-145 | the loop prints the map |
| HilPublish.SerializeStagePatch | src/app/hil_evidence.cpp:893-912 | the patch is the text that the serializer prints for that stage result |
| HilPublish.PatchUpdates | src/app/hil_evidence.cpp:916-941 | the patched text is the serialization of the updated record if and only if the record has the stage and no map printed before it leads with the stage's name; otherwise the stage is missing, or the result is the serialization of no record |
| HilPublish.ReplaceRow | src/app/hil_evidence.cpp:942-953 | replaces the line that starts at the first marker of the stage; refuses exactly a table without the marker |
| HilMarkdown.FindInLines | src/app/hil_evidence.cpp:942-953 | a search for something within one line looks at whole lines separately |
| HilMarkdown.RowUpdates | src/app/hil_evidence.cpp:742-784 | for every record: without the marker before the stage's row, the patched table is that of the updated record if and only if the result has no PTT certainty other than "unknown"; with the marker before it, in the head or in an earlier row, a row that had to change is left as it was |
| HilMarkdown.CertaintyTakes | src/app/hil_evidence.cpp:742-784 | a PTT certainty that is the name of a stage makes its row hold the marker of that stage's row |
| HilMarkdown.RowIsTaken | src/app/hil_evidence.cpp:942-953 | a valid record in which that happens: the table is not that of the updated record |
| HilPublish.PatchesUpdate | src/app/hil_evidence.cpp:916-960 | any number of publications keep the text the serialization of the updated record if no map's first key is "stage"; they succeed exactly if no text on the way exceeds the size limit and the table has each stage's row |
| HilPublish.PublishStageResult | src/app/hil_evidence.cpp:916-960 | keyed stages and the manifest are refused, oversized files fail, a missing stage or row is reported, else both patched texts are published |
| HilPublish.RecordIsValid | src/app/hil_evidence.cpp:362-551 | the record of the next row passes the validation |
| HilPublish.OptionIsOverwritten | src/app/hil_evidence.cpp:931-941 | a valid record whose build option takes the patch of a valid stage result, so that the published text is the serialization of no record |

## Left out

- Sockets, miniaudio, device discovery, image decoding, Qt, option parsing and file publication; where their answers matter they are parameters.
- Sine, decibels, correlation and level measurement; the oscillator is two arbitrary functions.
- SHA-256: the configuration digest is an arbitrary string.
- Error messages, operation identifiers, trace details beyond their number, high-water marks, discontinuity counters and the snapshot that other threads read.
- `LiveTransmitService` and `HilStageAuthorizer`. `HilValidation` states what `validateHilEvidence` requires except the range of the gain, for the record that fails; the other evidence theorems hold for records it would refuse as well.
- The XML of flrig: its parser is an arbitrary function from replies to answers, and the HTTP framing is not modelled.
- The source's checks for a missing source or endpoint, and exceptions from allocation failure.
- AudioStream.AudioStream.ProcessCallback: the channel layout is the negotiated one, given at construction; in the source it is set when the stream opens.
- PttSupervision.PttWatchdog.Arm: for a watchdog that is armed once, as the coordinator does.
- TransmitCoordinator.TransmitCoordinator.RetryHazardCleanup: a retry that looks at the activity flag just before a session starts, and records its result during it, is not modelled; the theorems on lost hazards are about the run thread and the watchdog.
- HilJson.EscapeRoundTrip: the reader does not join surrogate pairs, which the writer never emits.
- TransmitScenario.HazardIsLostOnce: the steps are those of the modelled threads, put one after the other; that a script makes `Run` take them is not stated.
- TransmitScenario.TailIsCutShort: likewise.
- TransmitScenario.DelayIsCancelled: likewise.
- TransmitCoordinator.TransmitCoordinator.Run: `shutdown` appears as the flag it sets; that it waits for the session to end is not stated.
- HilPublish.PublishStageResult: the last brace at or before the marker is taken to be the marker's own first character, which it is.
- HilMarkdown.RowUpdates: the size limit of the table and its other refusals are those of PublishStageResult.
- HilEvidence.RecordValid: the gain is kept as decimal text; the printing of doubles is not modelled, and maps are the sequences of their entries in key order.
- RingInterleaving.FirstInFirstOut: positions are unbounded, so that it covers fewer than 2^64 samples between resets.
- SequentialRgb.EncodedCount: counts are unbounded; the source's overflow check on the number of events is not modelled.
- WavWriter.Write: samples are real numbers, so the refusal of samples that are not finite does not occur.
- RenderedSource.CreateSource: the gain is given as an amplitude; its conversion from decibels is not modelled.
- Vis.MakeVisBits: amplitudes are real numbers, not single-precision floats.
