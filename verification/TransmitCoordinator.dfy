/** TransmitCoordinator (src/app/transmit_coordinator.cpp): admission, the preflight that
    confirms PTT unkeyed before audio is opened, the session and its end. */
module TransmitCoordinator {
  import opened Ptt
  import opened TransmitLog
  import opened TransmitWorld
  import opened PttSupervision
  import opened TransmitTypes
  import opened TransmitSession

  datatype TransmitResult = TransmitResult(outcome: TransmitOutcome, error: TransmitError, submittedFrames: nat)

  /** No watchdog exists and nothing has been logged. */
  function NewSession(s: Shared): Shared {
    s.(log := [], dog := Dog(Absent, false, false, 0, 0, false, PttCleanupPolicy(0, 0, 0)))
  }

  /** Audio was not touched and PTT was not keyed. */
  predicate Untouched(m: Monitor) {
    !m.bad && m.keys == 0 && m.setup.opens == 0 && !m.setup.audioOpen && m.signal == FRESH.signal
    && m.teardown == FRESH.teardown && m.lateFrames == 0
  }

  /** What outcome and error say about the session. */
  predicate Answered(s: Shared, result: TransmitResult) {
    var m := MonitorOf(s);
    && (result.outcome.OutcomeRejected? <==> result.error.InvalidConfiguration? || result.error.ConcurrentSession?)
    // any other error has its cause, and only a hazard that was there before is reported as such
    && (match result.error
        case NoTransmitError => !result.outcome.OutcomeFaulted?
        case InvalidConfiguration => true
        case ConcurrentSession => true
        case UnresolvedPttHazard => result.outcome.OutcomeHazardous? && Untouched(m)
        case code => Grounds(s, code))
    && (result.outcome.OutcomeCompleted? ==> result.error.NoTransmitError?)
    && (result.outcome.OutcomeCancelled? ==> s.cancelled || s.shuttingDown)
    // the hazard that is reported is on record, unless the watchdog rewrote the record since
    && (!s.dog.hasExpired ==> (result.outcome.OutcomeHazardous? ==> s.safety.hasHazard))
    && (!s.dog.hasExpired && m.setup.opens > 0 && s.safety.hasHazard ==> result.outcome.OutcomeHazardous?)
  }

  /** What a session leaves behind, for every interleaving and every reply. */
  predicate Report(s: Shared, request: TransmitRequest, samples: seq<Sample>, result: TransmitResult) {
    var m := MonitorOf(s);
    && Inv(s) && !m.bad
    // a key request is answered by a definite unkey or remembered as a hazard,
    // unless an outdated watchdog record came last
    && (m.keys > 0 ==> m.danger.unkeyedAfterKey || s.safety.hasHazard || m.danger.lastStale)
    // audio that was opened is stopped and closed exactly once, after the release
    && m.teardown == (if m.setup.audioOpen then Teardown(m.keys > 0, 1, 1, 1) else Teardown(m.keys > 0, 0, 0, 0))
    // the accepted signal is a prefix of the source, and almost none of it is late
    && m.signal.queued <= samples && |m.signal.queued| == result.submittedFrames
    && m.lateFrames <= request.blockFrames
    // a completed session sent and played everything, and held the tail unless a heartbeat failed
    && (result.outcome.OutcomeCompleted? ==>
          Flawless(m.(teardown := Teardown(true, 0, 0, 0)), samples, request.policy.postAudioTail * MILLISECOND))
    && (result.outcome.OutcomeRejected? ==> Untouched(m))
    && Answered(s, result)
  }

  lemma NewSessionFresh(s: Shared)
    requires 0 <= s.now
    ensures Inv(NewSession(s)) && MonitorOf(NewSession(s)) == FRESH
  {
  }

  /** The preflight leaves the monitor fresh except for the confirmation. */
  predicate Preflight(s: Shared) {
    && Inv(s) && s.dog.worker.Absent? && !s.dog.hasExpired && !s.dog.isArmed && s.dog.expiry <= s.now
    && !s.dog.stopRequested
    && MonitorOf(s) == FRESH.(setup := FRESH.setup.(confirmed := MonitorOf(s).setup.confirmed),
                              trouble := MonitorOf(s).trouble, danger := MonitorOf(s).danger)
  }

  lemma PreflightQuiet(s: Shared, t: Shared)
    requires Preflight(s) && Quiet(s, t) && MonitorOf(t).signal == MonitorOf(s).signal
    ensures Preflight(t) && (MonitorOf(s).setup.confirmed ==> MonitorOf(t).setup.confirmed)
    ensures t.safety == s.safety && s.now <= t.now && (Troubled(s) ==> Troubled(t))
  {
    hide Watch;
  }

  lemma PreflightRely(s: Shared, t: Shared)
    requires Preflight(s) && Rely(s, t)
    ensures Preflight(t) && MonitorOf(t).setup == MonitorOf(s).setup && t.safety == s.safety
    ensures Troubled(s) ==> Troubled(t)
  {
    hide Watch;
  }

  lemma PreflightRecord(s: Shared, cleanup: PttCleanupResult)
    requires Preflight(s)
    ensures var t := RecordCleanup(s, RunThread, cleanup);
            && Preflight(t) && MonitorOf(t).setup == MonitorOf(s).setup && t.safety.hasHazard == cleanup.hasHazard
            && (cleanup.hasHazard ==> Troubled(t))
  {
    hide Watch;
    WatchAppend(s.log, CleanupRecorded(RunThread, cleanup));
  }

  lemma UntouchedReport(s: Shared, request: TransmitRequest, samples: seq<Sample>, result: TransmitResult)
    requires Preflight(s) && result.submittedFrames == 0 && !result.outcome.OutcomeCompleted?
    requires || (result.outcome.OutcomeRejected? && result.error.InvalidConfiguration?)
             || (result.outcome.OutcomeCancelled? && result.error.CancelledByUser? && (s.cancelled || s.shuttingDown))
             || (result.outcome.OutcomeHazardous? && result.error.UnresolvedPttHazard? && s.safety.hasHazard)
    ensures Report(s, request, samples, result) && Untouched(MonitorOf(s))
  {
    hide Watch;
  }

  lemma PreflightBooks(s: Shared, samples: seq<Sample>, blockFrames: nat, tail: int)
    requires Preflight(s) && MonitorOf(s).setup.confirmed
    ensures SessionInv(s, Books(samples, blockFrames, tail, false, false, NoTransmitError, false, false, 0)) && OnlySetup(MonitorOf(s))
    ensures MonitorOf(s).setup == Setup(true, 0, false, false, false, false, false)
  {
    hide Watch;
  }

  lemma EndReport(s: Shared, t: Shared, request: TransmitRequest, b: Books, result: TransmitResult)
    requires EndInv(s, b, if b.audioIsOpen then 1 else 0)
    requires b.blockFrames == request.blockFrames && b.tail == request.policy.postAudioTail * MILLISECOND
    requires Inv(t) && EnvMonitor(MonitorOf(s), MonitorOf(t)) && Accounted(t)
    requires (s.cancelled ==> t.cancelled) && (s.shuttingDown ==> t.shuttingDown)
    requires (s.dog.hasExpired ==> t.dog.hasExpired) && (!t.dog.hasExpired ==> t.safety == s.safety)
    requires result.submittedFrames == b.submitted && result.error == b.error && !result.outcome.OutcomeRejected?
    requires (result.outcome.OutcomeCompleted? ==> !b.hasFault) && (result.outcome.OutcomeFaulted? ==> b.hasFault)
    requires result.outcome.OutcomeHazardous? <==> s.safety.hasHazard
    requires result.outcome.OutcomeCancelled? ==> s.cancelled || s.shuttingDown
    ensures Report(t, request, b.samples, result)
  {
    hide Watch;
  }

  class TransmitCoordinator {
    const world: World
    const supervisor: PttSupervisor
    var isActive: bool

    constructor (world: World)
      ensures this.world == world && supervisor.world == world && !isActive
    {
      this.world := world;
      supervisor := new PttSupervisor(world);
      isActive := false;
    }

    method Run(request: TransmitRequest, source: FiniteSampleSource, hasEndpoint: bool) returns (result: TransmitResult)
      requires supervisor.world == world && 0 <= world.s.now && source.position == 0 && !source.isCancelled
      modifies this, world, source
      ensures isActive == old(isActive)
      ensures old(isActive) ==>
                result == TransmitResult(OutcomeRejected, ConcurrentSession, 0) && world.s == old(world.s)
      ensures !old(isActive) ==> Report(world.s, request, source.samples, result)
      ensures result.outcome.OutcomeRejected? <==>
                old(isActive) || !hasEndpoint || !ValidRequest(request, source.facts, |source.samples|)
      // a remembered hazard refuses the session before anything is opened
      ensures !old(isActive) && old(world.s.safety.hasHazard) ==>
                Untouched(MonitorOf(world.s)) && !result.outcome.OutcomeCompleted? && world.s.safety == old(world.s.safety)
      // an admitted session in which nobody cancels, no lease runs out and nothing fails completes
      ensures !result.outcome.OutcomeRejected? && !old(world.s.safety.hasHazard) && !Troubled(world.s) ==>
                result.outcome.OutcomeCompleted?
    {
      if isActive {
        return TransmitResult(OutcomeRejected, ConcurrentSession, 0);
      }
      isActive := true;
      NewSessionFresh(world.s);
      world.s := NewSession(world.s);
      result := RunSession(request, source, hasEndpoint);
      isActive := false;
    }

    method RunSession(request: TransmitRequest, source: FiniteSampleSource,
                      hasEndpoint: bool) returns (result: TransmitResult)
      requires supervisor.world == world && source.position == 0 && !source.isCancelled
      requires Preflight(world.s) && MonitorOf(world.s) == FRESH
      modifies world, source
      ensures Report(world.s, request, source.samples, result)
      ensures result.outcome.OutcomeRejected? <==> !hasEndpoint || !ValidRequest(request, source.facts, |source.samples|)
      ensures !result.outcome.OutcomeRejected? && !old(world.s.safety.hasHazard) && !Troubled(world.s) ==>
                result.outcome.OutcomeCompleted?
      ensures old(world.s.safety.hasHazard) ==>
                Untouched(MonitorOf(world.s)) && !result.outcome.OutcomeCompleted? && world.s.safety == old(world.s.safety)
    {
      hide Watch, Rely, Quiet, Report, Untouched, Preflight, ValidPolicy;
      Uncancel();
      if !hasEndpoint || !ValidRequest(request, source.facts, |source.samples|) {
        result := TransmitResult(OutcomeRejected, InvalidConfiguration, 0);
        UntouchedReport(world.s, request, source.samples, result);
        return;
      }
      var cancelled := CheckCancelled();
      if cancelled {
        result := TransmitResult(OutcomeCancelled, CancelledByUser, 0);
        UntouchedReport(world.s, request, source.samples, result);
        return;
      }
      NextPreflight();
      if world.s.safety.hasHazard {
        result := TransmitResult(OutcomeHazardous, UnresolvedPttHazard, 0);
        UntouchedReport(world.s, request, source.samples, result);
        return;
      }
      var confirmed := ConfirmUnkeyed(request);
      if !confirmed {
        result := TransmitResult(OutcomeHazardous, UnresolvedPttHazard, 0);
        UntouchedReport(world.s, request, source.samples, result);
        return;
      }
      result := Transmit(request, source);
    }

    method NextPreflight()
      requires Preflight(world.s)
      modifies world
      ensures Preflight(world.s) && world.s.safety == old(world.s.safety)
      ensures MonitorOf(world.s).setup == MonitorOf(old(world.s)).setup
    {
      hide Watch, Rely;
      var t := world.Yield();
      PreflightRely(old(world.s), world.s);
    }

    /** A cancellation that arrives before this store is forgotten. */
    method Uncancel()
      requires Preflight(world.s)
      modifies world
      ensures Preflight(world.s) && world.s.safety == old(world.s.safety)
      ensures MonitorOf(world.s).setup == MonitorOf(old(world.s)).setup
    {
      hide Watch;
      NextPreflight();
      world.s := world.s.(cancelled := false);
    }

    method CheckCancelled() returns (cancelled: bool)
      requires Preflight(world.s)
      modifies world
      ensures Preflight(world.s) && world.s.safety == old(world.s.safety)
      ensures cancelled ==> world.s.cancelled || world.s.shuttingDown
    {
      hide Watch, Preflight;
      NextPreflight();
      cancelled := world.s.cancelled;
      if !cancelled {
        NextPreflight();
        cancelled := world.s.shuttingDown;
      }
    }

    /** Query; if that is not conclusive, unkey and record the result. */
    method ConfirmUnkeyed(request: TransmitRequest) returns (confirmed: bool)
      requires supervisor.world == world && Preflight(world.s) && ValidPolicy(request.policy)
      modifies world
      ensures Preflight(world.s)
      ensures confirmed ==> MonitorOf(world.s).setup.confirmed
      ensures !confirmed ==> world.s.safety.hasHazard && Troubled(world.s)
    {
      hide Watch, Rely, Quiet, ValidPolicy;
      confirmed := QueryUnkeyed(request.policy.readbackTimeout * MILLISECOND);
      if !confirmed {
        ghost var a := world.s;
        var policy := PolicyOf(request);
        var cleanup := supervisor.UnkeyWithRetries(policy);
        PreflightQuiet(a, world.s);
        NextPreflight();
        PreflightRecord(world.s, cleanup);
        world.s := RecordCleanup(world.s, RunThread, cleanup);
        confirmed := !cleanup.hasHazard;
      }
    }

    method PolicyOf(request: TransmitRequest) returns (policy: PttCleanupPolicy)
      requires ValidPolicy(request.policy)
      ensures policy == CleanupPolicy(request.policy)
    {
      policy := CleanupPolicy(request.policy);
    }

    method QueryUnkeyed(timeout: int) returns (confirmed: bool)
      requires supervisor.world == world && Preflight(world.s)
      modifies world
      ensures Preflight(world.s)
      ensures confirmed ==> MonitorOf(world.s).setup.confirmed
    {
      hide Watch, Rely, Quiet, Preflight;
      NextPreflight();
      var deadline := world.s.now + timeout;
      ghost var a := world.s;
      PreflightInv(a);
      var result, before, reply := supervisor.Execute(Query, deadline, 1);
      PreflightRely(a, before);
      PreflightInv(before);
      confirmed := IsConfirmedUnkeyed(result);
      if deadline <= before.now {
        RefusedQuiet(before, Query);
      } else {
        QueryQuiet(before, result);
        QuerySignal(before, result);
      }
      PreflightQuiet(before, world.s);
    }

    lemma PreflightInv(s: Shared)
      requires Preflight(s)
      ensures Inv(s)
    {
    }

    lemma QuerySignal(s: Shared, result: PttOperationResult)
      ensures MonitorOf(Emit(s, Provider(RunThread, Query, result))).signal == MonitorOf(s).signal
    {
      hide Watch;
      WatchAppend(s.log, Provider(RunThread, Query, result));
    }

    /** The session proper, ending with the watchdog joined. */
    method Transmit(request: TransmitRequest, source: FiniteSampleSource) returns (result: TransmitResult)
      requires Preflight(world.s) && MonitorOf(world.s).setup.confirmed && ValidPolicy(request.policy)
      requires source.position == 0 && !source.isCancelled
      modifies world, source
      ensures Report(world.s, request, source.samples, result) && !result.outcome.OutcomeRejected?
      ensures !Troubled(world.s) ==> result.outcome.OutcomeCompleted?
    {
      hide Watch, Report, EndInv, Accounted, Preflight, SessionInv, ValidPolicy;
      PreflightBooks(world.s, source.samples, request.blockFrames, request.policy.postAudioTail * MILLISECOND);
      var context := new RunContext(world, request, source);
      context.RunPhases();
      var outcome := context.Conclude();
      result := TransmitResult(outcome, context.error, context.submittedFrames);
      ghost var books, ended := context.Account(), world.s;
      EndAccounted(ended, books);
      if context.watchdog != null {
        context.watchdog.Join();
      }
      EndReport(ended, world.s, request, books, result);
    }

    lemma EndAccounted(s: Shared, b: Books)
      requires EndInv(s, b, if b.audioIsOpen then 1 else 0)
      ensures Inv(s) && Accounted(s)
    {
      hide Watch;
    }

    /** Clears a remembered hazard, but only after a definite unkey. */
    method RetryHazardCleanup(policy: PttCleanupPolicy) returns (cleanup: PttCleanupResult)
      requires supervisor.world == world && Inv(world.s) && !world.s.dog.stopRequested
      modifies world
      ensures isActive ==> cleanup == UNCONFIRMED && world.s == old(world.s)
      ensures !isActive ==>
                && (cleanup.hasHazard <==> !cleanup.certainty.DefinitelyUnkeyed?)
                && world.s.safety.hasHazard == cleanup.hasHazard
                && (!cleanup.hasHazard ==> MonitorOf(world.s).setup.confirmed)
    {
      hide Watch, Quiet, Rely;
      if isActive {
        return UNCONFIRMED;
      }
      cleanup := supervisor.UnkeyWithRetries(policy);
      ghost var a := world.s;
      var t := world.Yield();
      RecordSetup(a, world.s, cleanup);
      world.s := RecordCleanup(world.s, RunThread, cleanup);
    }

    lemma RecordSetup(s: Shared, t: Shared, cleanup: PttCleanupResult)
      requires Rely(s, t)
      ensures MonitorOf(RecordCleanup(t, RunThread, cleanup)).setup == MonitorOf(s).setup
    {
      hide Watch;
      WatchAppend(t.log, CleanupRecorded(RunThread, cleanup));
    }
  }
}
