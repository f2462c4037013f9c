/** Whether a key request is always answered for: the exact circumstances in which the
    safety record loses a hazard, and why undivided unkey-and-record pairs exclude them. */
module TransmitHazard {
  import opened Ptt
  import opened TransmitLog
  import opened TransmitWorld
  import opened TransmitTypes
  import opened TransmitCoordinator
  import opened TransmitOrder

  /** A key request that no reply has answered since with a definite unkey is remembered as
      a hazard, except exactly when the last safety record is the watchdog's, of an unkey
      that it had obtained before the request. */
  lemma AccountedExactly(s: Shared, request: TransmitRequest, samples: seq<Sample>, result: TransmitResult, k: nat)
    requires Report(s, request, samples, result)
    requires k < |s.log| && IsKeyRequest(s.log[k]) && !UnkeyedNoEarlier(s.log, k)
    ensures s.safety.hasHazard <==> !OutdatedLast(s.log, k)
  {
    hide Watch, Step, DogInv, Untouched, IsOutdated;
    KeysCounted(s.log, k);
    FirstKey(s.log, k);
    UnkeyedHappened(s.log, k);
    StaleExactly(s.log);
    if i, j, r :| IsOutdated(s.log, i, j, r) {
      OnlyKey(s.log, i, j, r, k);
    }
  }

  lemma OnlyKey(log: seq<Event>, i: int, j: int, r: int, k: nat)
    requires !Watch(log).bad && IsOutdated(log, i, j, r) && k < |log| && IsKeyRequest(log[k])
    ensures j == k
  {
    hide Watch;
    if j < k {
      KeyedOnce(log, j, k);
    } else if k < j {
      KeyedOnce(log, k, j);
    }
  }

  /** If no key request falls between a watchdog's confirmed unkey and its record, a key
      request that reached the supervisor is followed by a definite unkey or remembered. */
  lemma HazardNeverLost(s: Shared, request: TransmitRequest, samples: seq<Sample>, result: TransmitResult, k: nat)
    requires Report(s, request, samples, result) && PairsUndivided(s.log)
    requires k < |s.log| && IsKeyRequest(s.log[k])
    ensures UnkeyedNoEarlier(s.log, k) || s.safety.hasHazard
  {
    hide Watch, Step, Inv;
    KeysCounted(s.log, k);
    UndividedNeverStale(s.log);
    FirstKey(s.log, k);
    if MonitorOf(s).danger.unkeyedAfterKey {
      UnkeyedHappened(s.log, k);
    }
  }

  lemma FirstKey(log: seq<Event>, k: nat)
    requires !Watch(log).bad && k < |log| && IsKeyRequest(log[k])
    ensures forall i :: 0 <= i < k ==> !IsKeyRequest(log[i])
  {
    hide Watch;
    forall i | 0 <= i < k ensures !IsKeyRequest(log[i]) {
      if IsKeyRequest(log[i]) {
        KeyedOnce(log, i, k);
      }
    }
  }

  /** A completed session needs no such assumption: it requested key, was answered
      error-free and definitely keyed, obtained a definite unkey no earlier, and offered
      no signal before the key request. */
  lemma CompletedIsUnkeyed(s: Shared, request: TransmitRequest, samples: seq<Sample>, result: TransmitResult)
    returns (k: nat)
    requires Report(s, request, samples, result) && result.outcome.OutcomeCompleted?
    ensures k < |s.log| && s.log[k].Provider? && s.log[k].action.Key? && IsKeyed(s.log[k].result)
    ensures UnkeyedNoEarlier(s.log, k)
    ensures forall q :: 0 <= q <= k ==> !s.log[q].Queued?
  {
    hide Watch, Step, Inv;
    KeyedHappened(s.log);
    k :| 0 <= k < |s.log| && s.log[k].Provider? && s.log[k].action.Key? && IsKeyed(s.log[k].result);
    FirstKey(s.log, k);
    UnkeyedHappened(s.log, k);
    forall q | 0 <= q <= k ensures !s.log[q].Queued? {
      if s.log[q].Queued? {
        SignalAfterKeyed(s.log, q);
      }
    }
  }

  /** The tail of a completed session lasted as long as requested if and only if no heartbeat
      failed before that time had passed. */
  lemma CompletedTail(s: Shared, request: TransmitRequest, samples: seq<Sample>, result: TransmitResult)
    returns (b: nat, e: nat)
    requires Report(s, request, samples, result) && result.outcome.OutcomeCompleted?
    ensures b < e < |s.log| && s.log[b].TailBegun? && s.log[e].TailEnded?
    ensures s.log[b].duration == request.policy.postAudioTail * MILLISECOND
    ensures s.log[b].at + s.log[b].duration <= s.log[e].at <==> !IsCut(s.log, b, e)
  {
    hide Watch, Step, Inv, IsCut;
    b, e := TailExactly(s.log);
  }

  // ------------------------------------------------------- why a session did not complete

  /** Whatever fault a session reports, its log has the event that it stands for, or somebody
      asked for the cancellation. */
  lemma FaultIsExplained(s: Shared, request: TransmitRequest, samples: seq<Sample>, result: TransmitResult)
    requires Report(s, request, samples, result)
    requires result.outcome.OutcomeFaulted? || IsFault(result.error)
    ensures || (result.error.CancelledByUser? && (s.cancelled || s.shuttingDown))
            || (result.error.WatchdogFailure? && Expired in s.log)
            || exists i :: 0 <= i < |s.log| && IsCause(s.log[i], result.error)
  {
    hide Watch, Step, IsCause, DogInv, DangerInv;
    CausesExactly(s.log, result.error);
    ExpiryHappened(s.log);
  }

  // -------------------------------------------------------- a run that loses a hazard

  /** The watchdog expired after the run thread's last look at it and obtains a definite
      unkey; the run thread requests key, gets no answer, cannot confirm an unkey and
      records the hazard; then the watchdog records what it had confirmed before. */
  function OvertakenRun(s: Shared, unkeyed: PttOperationResult, lost: PttOperationResult, deadline: int): Shared {
    var a := StepWorker(s, unkeyed);
    var b := RecordKeyAttempt(a);
    var c := Execute(b, RunThread, Key, 1, deadline, lost).0;
    var d := Execute(c, RunThread, Unkey, 1, deadline, lost).0;
    var e := RecordCleanup(d, RunThread, PttCleanupResult(Indeterminate, 1, true));
    StepWorker(e, unkeyed)
  }

  /** Whenever the run thread may key while the watchdog is about to unkey, this order of
      steps ends with no unkey after the key request and no hazard on record, although the
      run thread's own cleanup failed; the monitor, which knows the coordinator's order of
      actions, has no objection. */
  lemma HazardCanBeLost(s: Shared, unkeyed: PttOperationResult, lost: PttOperationResult, deadline: int)
    requires Inv(s) && !MonitorOf(s).bad && MayKey(MonitorOf(s)) && !MonitorOf(s).danger.unkeyedAfterKey
    requires s.dog.worker.UnkeyCalling? && s.now < s.dog.worker.deadline && s.now < deadline
    requires unkeyed.error.NoError? && unkeyed.certainty.DefinitelyUnkeyed? && unkeyed.completed == s.now
    requires lost.error.Timeout? && lost.certainty.Indeterminate?
    ensures var t := OvertakenRun(s, unkeyed, lost, deadline);
            && !MonitorOf(t).bad && MonitorOf(t).keys == 1 && MonitorOf(t).teardown.released
            && !MonitorOf(t).danger.unkeyedAfterKey && !t.safety.hasHazard && MonitorOf(t).danger.lastStale
  {
    hide Watch;
    var a := StepWorker(s, unkeyed);
    WatchAppend(s.log, Provider(Watchdog, Unkey, unkeyed));
    var b := RecordKeyAttempt(a);
    WatchAppend(a.log, KeyAttemptRecorded);
    var (c, key) := Execute(b, RunThread, Key, 1, deadline, lost);
    WatchAppend(b.log, Provider(RunThread, Key, key));
    OvertakenCleanup(c, unkeyed, lost, deadline);
  }

  lemma OvertakenCleanup(c: Shared, unkeyed: PttOperationResult, lost: PttOperationResult, deadline: int)
    requires c.dog.worker.Recording? && !c.dog.worker.cleanup.hasHazard
    requires c.now < deadline && lost.error.Timeout? && lost.certainty.Indeterminate?
    requires !MonitorOf(c).bad && MonitorOf(c).keys == 1
    requires !MonitorOf(c).danger.unkeyedAfterKey && MonitorOf(c).danger.pendingStale
    ensures var d := Execute(c, RunThread, Unkey, 1, deadline, lost).0;
            var e := RecordCleanup(d, RunThread, PttCleanupResult(Indeterminate, 1, true));
            var t := StepWorker(e, unkeyed);
            && !MonitorOf(t).bad && MonitorOf(t).keys == 1 && MonitorOf(t).teardown.released
            && !MonitorOf(t).danger.unkeyedAfterKey && !t.safety.hasHazard && MonitorOf(t).danger.lastStale
  {
    hide Watch;
    var (d, unkey) := Execute(c, RunThread, Unkey, 1, deadline, lost);
    WatchAppend(c.log, Provider(RunThread, Unkey, unkey));
    var failed := PttCleanupResult(Indeterminate, 1, true);
    var e := RecordCleanup(d, RunThread, failed);
    WatchAppend(d.log, CleanupRecorded(RunThread, failed));
    WatchAppend(e.log, CleanupRecorded(Watchdog, e.dog.worker.cleanup));
  }
}
