/** Three sessions, step by step from the start: one that completes although its tail was cut
    short, one that reports a cancellation that nobody asked for, and one that loses a
    hazard. Every step is one that the run thread, the watchdog
    worker or the clock takes in TransmitSession and TransmitWorld. */
module TransmitScenario {
  import opened Ptt
  import opened TransmitLog
  import opened TransmitWorld
  import opened TransmitTypes
  import opened TransmitCoordinator
  import opened TransmitOrder
  import opened TransmitHazard

  const LEASE: nat := 2 * MILLISECOND
  const TAIL: nat := 10 * MILLISECOND
  const POLICY := TransmitPolicy(1, 1, 0, 1, 2, 1, 10, 1, 1, 0, 1)
  const CLEANUP := PttCleanupPolicy(MILLISECOND, 1, 0)
  const REQUEST := TransmitRequest(POLICY, NOMINAL_RATE, 1, 1)
  const SAMPLES: seq<Sample> := [0.5]
  const FACTS := SourceFacts(NOMINAL_RATE, true)

  const START := Shared(1, SAFE_AT_START, Dog(Absent, false, false, 0, 0, false, CLEANUP), false, false, [])

  const UNKEYED := PttOperationResult(Unkeyed, DefinitelyUnkeyed, NoError, false, 0)
  const KEYED := PttOperationResult(Keyed, DefinitelyKeyed, NoError, true, 0)
  const LOST := PttOperationResult(Unknown, Indeterminate, Timeout, true, 0)

  const PLAYING := StatusRead(AudioStatus(NoFault, false))
  const PLAYED := StatusRead(AudioStatus(NoFault, true))

  lemma ScenarioIsAdmitted()
    ensures ValidRequest(REQUEST, FACTS, |SAMPLES|) && CleanupPolicy(POLICY) == CLEANUP
  {
  }

  function Ask(s: Shared, action: PttAction, reply: PttOperationResult): Shared {
    Execute(s, RunThread, action, 1, s.now + MILLISECOND, reply).0
  }

  lemma Emitted(s: Shared, e: Event)
    ensures MonitorOf(Emit(s, e)) == Step(MonitorOf(s), e)
  {
    hide Watch;
    WatchAppend(s.log, e);
  }

  lemma Asked(s: Shared, action: PttAction, reply: PttOperationResult)
    requires reply.completed == 0
    ensures Ask(s, action, reply) == Emit(s, Provider(RunThread, action, reply.(completed := s.now)))
    ensures MonitorOf(Ask(s, action, reply)) == OnProvider(MonitorOf(s), RunThread, action, reply.(completed := s.now))
  {
    hide Watch;
    Emitted(s, Provider(RunThread, action, reply.(completed := s.now)));
  }

  // ----------------------------------------------------------------- up to the key

  function Opening(s: Shared): Shared {
    Emit(Emit(Ask(s, Query, UNKEYED), Opened(true)), PLAYING)
  }

  lemma OpeningMonitor(s: Shared)
    requires MonitorOf(s) == FRESH
    ensures Opening(s) == s.(log := Opening(s).log)
    ensures MonitorOf(Opening(s)) == FRESH.(setup := Setup(true, 1, true, false, false, false, false))
  {
    hide Watch, Ask;
    Asked(s, Query, UNKEYED);
    var a := Ask(s, Query, UNKEYED);
    Emitted(a, Opened(true));
    Emitted(Emit(a, Opened(true)), PLAYING);
  }

  function Priming(s: Shared): Shared {
    Emit(Emit(Emit(Emit(s, Prefilled(1, true)), Primed(true)), Started(true)), PLAYING)
  }

  lemma PrimingMonitor(s: Shared)
    requires MonitorOf(s) == FRESH.(setup := Setup(true, 1, true, false, false, false, false))
    ensures Priming(s) == s.(log := Priming(s).log)
    ensures MonitorOf(Priming(s)) == FRESH.(setup := Setup(true, 1, true, true, true, true, false))
  {
    hide Watch;
    Emitted(s, Prefilled(1, true));
    var a := Emit(s, Prefilled(1, true));
    Emitted(a, Primed(true));
    var b := Emit(a, Primed(true));
    Emitted(b, Started(true));
    Emitted(Emit(b, Started(true)), PLAYING);
  }

  function Arming(s: Shared): Shared {
    Emit(Emit(s.(dog := Dog(AtHead, true, false, LEASE, s.now + LEASE, false, CLEANUP)), Armed(true)), PLAYING)
  }

  /** Everything is ready for the key request. */
  function Ready(): Shared {
    Arming(Priming(Opening(NewSession(START))))
  }

  const READY := FRESH.(setup := Setup(true, 1, true, true, true, true, true))

  lemma ReadyMonitor()
    ensures MonitorOf(Ready()) == READY
    ensures Ready() == START.(dog := Dog(AtHead, true, false, LEASE, 1 + LEASE, false, CLEANUP), log := Ready().log)
  {
    NewSessionFresh(START);
    hide Watch, Opening, Priming;
    var s := NewSession(START);
    OpeningMonitor(s);
    PrimingMonitor(Opening(s));
    var a := Priming(Opening(s)).(dog := Dog(AtHead, true, false, LEASE, 1 + LEASE, false, CLEANUP));
    Emitted(a, Armed(true));
    Emitted(Emit(a, Armed(true)), PLAYING);
  }

  /** The end of either session: audio is stopped and the watchdog joined. */
  function Closing(s: Shared): Shared {
    var a := s.(dog := s.dog.(isArmed := false));
    var b := Emit(Emit(Emit(a, StopRequested(true)), Stopped(true)), Closed(true));
    StepWorker(b.(dog := b.dog.(stopRequested := true)), UNKEYED)
  }

  lemma ClosingMonitor(s: Shared)
    requires s.dog.worker.AtHead? && !MonitorOf(s).bad && MonitorOf(s).setup.audioOpen
    requires MonitorOf(s).teardown == Teardown(true, 0, 0, 0)
    ensures Closing(s) == s.(dog := s.dog.(isArmed := false, stopRequested := true, worker := Exited), log := Closing(s).log)
    ensures MonitorOf(Closing(s)) == MonitorOf(s).(teardown := Teardown(true, 1, 1, 1))
  {
    hide Watch;
    var a := s.(dog := s.dog.(isArmed := false));
    Emitted(a, StopRequested(true));
    var b := Emit(a, StopRequested(true));
    Emitted(b, Stopped(true));
    Emitted(Emit(b, Stopped(true)), Closed(true));
  }

  // ----------------------------------------------------- a tail that was cut short

  function Keying(s: Shared): Shared {
    Emit(Ask(RecordKeyAttempt(s), Key, KEYED), PLAYING)
  }

  lemma KeyingMonitor(s: Shared)
    requires MonitorOf(s) == READY
    ensures MonitorOf(Keying(s)) == READY.(keys := 1, keyOk := true)
    ensures Keying(s) == s.(safety := AfterKeyAttempt(s.safety), log := Keying(s).log)
  {
    hide Watch, Ask;
    var a := RecordKeyAttempt(s);
    WatchAppend(s.log, KeyAttemptRecorded);
    Asked(a, Key, KEYED);
    Emitted(Ask(a, Key, KEYED), PLAYING);
  }

  function Sending(s: Shared): Shared {
    Emit(Emit(Emit(Emit(s, PLAYING), Beat(true, s.now)), Queued(SAMPLES, 1)), SignalFinished)
  }

  lemma SendingMonitor(s: Shared)
    requires MonitorOf(s) == READY.(keys := 1, keyOk := true)
    ensures MonitorOf(Sending(s)) == READY.(keys := 1, keyOk := true, signal := Signal(SAMPLES, false, true, false, false))
    ensures Sending(s) == s.(log := Sending(s).log)
  {
    hide Watch;
    BeatingMonitor(s);
    var b := Emit(Emit(s, PLAYING), Beat(true, s.now));
    Emitted(b, Queued(SAMPLES, 1));
    var c := Emit(b, Queued(SAMPLES, 1));
    assert [] + SAMPLES[..1] == SAMPLES;
    Emitted(c, SignalFinished);
  }

  lemma BeatingMonitor(s: Shared)
    requires !MonitorOf(s).signal.finished
    ensures MonitorOf(Emit(Emit(s, PLAYING), Beat(true, s.now))) == MonitorOf(s)
  {
    hide Watch;
    Emitted(s, PLAYING);
    Emitted(Emit(s, PLAYING), Beat(true, s.now));
  }

  function Draining(s: Shared): Shared {
    Emit(Emit(Emit(Emit(s, PLAYING), PLAYED), PLAYED), PLAYED)
  }

  lemma DrainingMonitor(s: Shared)
    requires MonitorOf(s).signal == Signal(SAMPLES, false, true, false, false)
    ensures MonitorOf(Draining(s)) == MonitorOf(s).(signal := Signal(SAMPLES, false, true, true, true))
    ensures Draining(s) == s.(log := Draining(s).log)
  {
    hide Watch;
    Emitted(s, PLAYING);
    var a := Emit(s, PLAYING);
    Emitted(a, PLAYED);
    var b := Emit(a, PLAYED);
    Emitted(b, PLAYED);
    Emitted(Emit(b, PLAYED), PLAYED);
  }

  /** The heartbeat comes when the lease has just run out; the worker is not yet awake. */
  function CuttingTail(s: Shared): Shared {
    var a := ApplyStep(Emit(Emit(s, TailBegun(s.now, TAIL)), PLAYED), Tick(LEASE));
    Emit(Emit(a, Beat(false, a.now)), TailEnded(a.now))
  }

  lemma CuttingMonitor(s: Shared)
    requires MonitorOf(s).signal.drained && MonitorOf(s).signal.finished && MonitorOf(s).signal.cleanAfterFinish
    requires MonitorOf(s).tail == NO_TAIL && MonitorOf(s).trouble == NO_TROUBLE
    requires !MonitorOf(s).teardown.released && !MonitorOf(s).bad
    ensures MonitorOf(CuttingTail(s)) ==
            MonitorOf(s).(tail := Tail(true, s.now, TAIL, true, s.now + LEASE, true),
                          trouble := Trouble(NoFault, false, {WatchdogFailure, CancelledByUser}))
    ensures CuttingTail(s) == s.(now := s.now + LEASE, log := CuttingTail(s).log)
  {
    hide Watch;
    Emitted(s, TailBegun(s.now, TAIL));
    var a := Emit(s, TailBegun(s.now, TAIL));
    Emitted(a, PLAYED);
    var b := ApplyStep(Emit(a, PLAYED), Tick(LEASE));
    Emitted(b, Beat(false, b.now));
    Emitted(Emit(b, Beat(false, b.now)), TailEnded(b.now));
  }

  function Releasing(s: Shared): Shared {
    RecordCleanup(Ask(s, Unkey, UNKEYED), RunThread, PttCleanupResult(DefinitelyUnkeyed, 1, false))
  }

  lemma ReleasingMonitor(s: Shared)
    requires MonitorOf(s).keys == 1 && MonitorOf(s).setup.confirmed && !MonitorOf(s).danger.lastStale
    requires MonitorOf(s).teardown == Teardown(false, 0, 0, 0)
    ensures var m := MonitorOf(s);
            MonitorOf(Releasing(s)) ==
            m.(danger := m.danger.(unkeyedAfterKey := true), teardown := Teardown(true, 0, 0, 0))
    ensures Releasing(s) == s.(safety := Releasing(s).safety, log := Releasing(s).log) && !Releasing(s).safety.hasHazard
  {
    hide Watch, Ask;
    var cleanup := PttCleanupResult(DefinitelyUnkeyed, 1, false);
    Asked(s, Unkey, UNKEYED);
    var a := Ask(s, Unkey, UNKEYED);
    WatchAppend(a.log, CleanupRecorded(RunThread, cleanup));
  }

  function ShortTail(): Shared {
    Closing(Releasing(CuttingTail(Draining(Sending(Keying(Ready()))))))
  }

  /** A session that completes as the coordinator reports it, and whose tail of ten
      milliseconds ended after two. */
  lemma TailIsCutShort() returns (result: TransmitResult)
    ensures ValidRequest(REQUEST, FACTS, |SAMPLES|) && CleanupPolicy(POLICY) == CLEANUP
    ensures Report(ShortTail(), REQUEST, SAMPLES, result) && result.outcome.OutcomeCompleted?
    ensures MonitorOf(ShortTail()).tail == Tail(true, 1, TAIL, true, 1 + LEASE, true)
  {
    hide Watch, Ready, Keying, Sending, Draining, CuttingTail, Releasing, Closing;
    result := TransmitResult(OutcomeCompleted, NoTransmitError, 1);
    ScenarioIsAdmitted();
    ReadyMonitor();
    KeyingMonitor(Ready());
    var a := Keying(Ready());
    SendingMonitor(a);
    DrainingMonitor(Sending(a));
    var b := Draining(Sending(a));
    CuttingMonitor(b);
    var c := CuttingTail(b);
    ReleasingMonitor(c);
    var d := Releasing(c);
    ClosingMonitor(d);
  }

  // ------------------------------------------------- a cancellation nobody asked for

  const DELAYED := REQUEST.(policy := POLICY.(preKeyDelay := 10))

  /** The heartbeat of the pre-key delay comes when the lease has just run out. */
  function Interrupted(s: Shared): Shared {
    var a := ApplyStep(s, Tick(LEASE));
    Emit(Emit(Emit(a, Beat(false, a.now)), Gated), Gated)
  }

  lemma InterruptedMonitor(s: Shared)
    requires MonitorOf(s) == READY.(keys := 1, keyOk := true)
    ensures Interrupted(s) == s.(now := s.now + LEASE, log := Interrupted(s).log)
    ensures MonitorOf(Interrupted(s)) ==
            READY.(keys := 1, keyOk := true, signal := FRESH.signal.(gated := true),
                   trouble := Trouble(NoFault, false, {WatchdogFailure, CancelledByUser}))
  {
    hide Watch;
    var a := ApplyStep(s, Tick(LEASE));
    Emitted(a, Beat(false, a.now));
    var b := Emit(a, Beat(false, a.now));
    Emitted(b, Gated);
    Emitted(Emit(b, Gated), Gated);
  }

  function InterruptedDelay(): Shared {
    Closing(Releasing(Interrupted(Keying(Ready()))))
  }

  /** A session as the coordinator reports it: cancelled is its error, and nobody cancelled. */
  lemma DelayIsCancelled() returns (result: TransmitResult)
    ensures ValidRequest(DELAYED, FACTS, |SAMPLES|) && CleanupPolicy(DELAYED.policy) == CLEANUP
    ensures Report(InterruptedDelay(), DELAYED, SAMPLES, result)
    ensures result == TransmitResult(OutcomeFaulted, CancelledByUser, 0)
    ensures !InterruptedDelay().cancelled && !InterruptedDelay().shuttingDown && !InterruptedDelay().dog.hasExpired
  {
    hide Watch, Ready, Keying, Interrupted, Releasing, Closing;
    result := TransmitResult(OutcomeFaulted, CancelledByUser, 0);
    ReadyMonitor();
    KeyingMonitor(Ready());
    var a := Keying(Ready());
    InterruptedMonitor(a);
    var b := Interrupted(a);
    ReleasingMonitor(b);
    ClosingMonitor(Releasing(b));
  }

  // -------------------------------------------------------------- a hazard is lost

  /** Between the run thread's last look at the watchdog and its key request the lease runs
      out, and the worker notices. */
  function Overdue(s: Shared): Shared {
    var a := ApplyStep(s, Tick(LEASE));
    StepWorker(StepWorker(StepWorker(StepWorker(a, UNKEYED), UNKEYED), UNKEYED), UNKEYED)
  }

  lemma OverdueWorker(s: Shared)
    requires s.dog == Dog(AtHead, true, false, LEASE, s.now + LEASE, false, CLEANUP)
    ensures Overdue(s) == s.(now := s.now + LEASE, dog := s.dog.(worker := Worker.Expiring))
  {
    var a := ApplyStep(s, Tick(LEASE));
    var b := StepWorker(a, UNKEYED);
    assert b == a.(dog := a.dog.(worker := Sleeping(a.dog.expiry)));
    var c := StepWorker(StepWorker(b, UNKEYED), UNKEYED);
    assert c == a.(dog := a.dog.(worker := Checking(a.dog.expiry)));
  }

  /** The worker publishes the expiry and obtains a definite unkey. */
  function Expiring(s: Shared): Shared {
    StepWorker(StepWorker(StepWorker(s, UNKEYED), UNKEYED), UNKEYED)
  }

  lemma ExpiringMonitor(s: Shared)
    requires s.dog.worker == Worker.Expiring && s.dog.policy == CLEANUP && MonitorOf(s) == READY
    ensures var t := Expiring(s);
            && t == s.(log := t.log,
                       dog := s.dog.(hasExpired := true, worker := Recording(PttCleanupResult(DefinitelyUnkeyed, 1, false))))
            && MonitorOf(t) == READY.(danger := Danger(true, false, true, false, false))
  {
    hide Watch;
    Emitted(s, Expired);
    var a := StepWorker(s, UNKEYED);
    assert a == Emit(s, Expired).(dog := s.dog.(hasExpired := true, worker := UnkeyStarting(1)));
    var b := StepWorker(a, UNKEYED);
    Emitted(b, Provider(Watchdog, Unkey, UNKEYED.(completed := b.now)));
  }

  function LosingKey(s: Shared): Shared {
    Emit(Emit(Ask(RecordKeyAttempt(s), Key, LOST), Gated), Gated)
  }

  lemma LosingKeyMonitor(s: Shared)
    requires MonitorOf(s) == READY.(danger := Danger(true, false, true, false, false))
    ensures var t := LosingKey(s);
            && t == s.(safety := AfterKeyAttempt(s.safety), log := t.log)
            && MonitorOf(t) == READY.(keys := 1, signal := FRESH.signal.(gated := true),
                                      trouble := Trouble(NoFault, false, {KeyFailure}), danger := Danger(true, false, true, true, false))
  {
    hide Watch, Ask;
    var a := RecordKeyAttempt(s);
    WatchAppend(s.log, KeyAttemptRecorded);
    Asked(a, Key, LOST);
    var b := Ask(a, Key, LOST);
    Emitted(b, Gated);
    Emitted(Emit(b, Gated), Gated);
  }

  /** The run thread fails to unkey and records that; then the worker records what it had
      confirmed before the key request. */
  function LosingRecord(s: Shared): Shared {
    var a := RecordCleanup(Ask(s, Unkey, LOST), RunThread, PttCleanupResult(Indeterminate, 1, true));
    StepWorker(StepWorker(a, UNKEYED), UNKEYED)
  }

  lemma LosingRecordMonitor(s: Shared)
    requires MonitorOf(s).keys == 1 && MonitorOf(s).trouble == Trouble(NoFault, false, {KeyFailure})
    requires MonitorOf(s).teardown == Teardown(false, 0, 0, 0)
    requires MonitorOf(s).danger == Danger(true, false, true, true, false)
    requires s.dog.worker == Recording(PttCleanupResult(DefinitelyUnkeyed, 1, false))
    ensures var t := LosingRecord(s);
            && t == s.(safety := t.safety, log := t.log, dog := s.dog.(isArmed := false, worker := AtHead))
            && !t.safety.hasHazard
            && MonitorOf(t) ==
               MonitorOf(s).(teardown := Teardown(true, 0, 0, 0), trouble := Trouble(NoFault, false, {KeyFailure, CleanupFailure}),
                             danger := Danger(true, false, false, false, true))
  {
    hide Watch, Ask;
    Asked(s, Unkey, LOST);
    var a := Ask(s, Unkey, LOST);
    assert MonitorOf(a) == MonitorOf(s);
    var failed := PttCleanupResult(Indeterminate, 1, true);
    var b := RecordCleanup(a, RunThread, failed);
    WatchAppend(a.log, CleanupRecorded(RunThread, failed));
    WatchAppend(b.log, CleanupRecorded(Watchdog, b.dog.worker.cleanup));
  }

  function LostHazard(): Shared {
    Closing(LosingRecord(LosingKey(Expiring(Overdue(Ready())))))
  }

  /** A session as the coordinator reports it: the key request may have keyed the
      transmitter, no unkey was confirmed since, and no hazard is remembered. */
  lemma HazardIsLostOnce() returns (result: TransmitResult, k: nat)
    ensures ValidRequest(REQUEST, FACTS, |SAMPLES|) && CleanupPolicy(POLICY) == CLEANUP
    ensures Report(LostHazard(), REQUEST, SAMPLES, result)
    ensures result == TransmitResult(OutcomeFaulted, KeyFailure, 0)
    ensures k < |LostHazard().log| && IsKeyRequest(LostHazard().log[k])
    ensures !UnkeyedNoEarlier(LostHazard().log, k) && OutdatedLast(LostHazard().log, k)
    ensures !LostHazard().safety.hasHazard
  {
    hide Watch, Step, Ready, Overdue, Expiring, LosingKey, LosingRecord, Closing, IsKeyRequest, IsUnkeyedReply, OutdatedLast;
    result := TransmitResult(OutcomeFaulted, KeyFailure, 0);
    ScenarioIsAdmitted();
    ReadyMonitor();
    OverdueWorker(Ready());
    var a := Overdue(Ready());
    ExpiringMonitor(a);
    a := Expiring(a);
    LosingKeyMonitor(a);
    var b := LosingKey(a);
    LosingRecordMonitor(b);
    ClosingMonitor(LosingRecord(b));
    k := KeyHappened(LostHazard().log);
    FirstKey(LostHazard().log, k);
    UnkeyedHappened(LostHazard().log, k);
    AccountedExactly(LostHazard(), REQUEST, SAMPLES, result, k);
  }
}
