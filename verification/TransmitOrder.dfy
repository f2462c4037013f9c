/** What an untroubled monitor says about the log, event by event. These lemmas turn the
    monitor's verdict on a session into statements about the order of its actions. */
module TransmitOrder {
  import opened Ptt
  import opened TransmitLog

  predicate IsKeyRequest(e: Event) {
    (e.Refused? || e.Provider?) && e.action.Key?
  }

  predicate IsConfirmation(e: Event) {
    && e.Provider?
    && ((e.action.Query? && IsConfirmedUnkeyed(e.result))
        || (e.action.Unkey? && e.who.RunThread? && e.result.certainty.DefinitelyUnkeyed?))
  }

  /** Frames an event adds to the accepted signal. */
  function Accepted(e: Event): nat {
    if e.Queued? && e.accepted <= |e.offered| then e.accepted else 0
  }

  predicate IsWatchdogConfirmation(e: Event) {
    e.Provider? && e.who.Watchdog? && e.action.Unkey? && e.result.certainty.DefinitelyUnkeyed?
  }

  predicate IsWatchdogRecord(e: Event) {
    e.CleanupRecorded? && e.who.Watchdog?
  }

  /** An event that rewrites the safety record. */
  predicate IsRecord(e: Event) {
    e.KeyAttemptRecorded? || e.CleanupRecorded?
  }

  // ------------------------------------------------------ what one event can change

  lemma SetupStep(m: Monitor, e: Event)
    ensures var (p, q) := (m.setup, Step(m, e).setup);
            && (q.audioOpen ==> p.audioOpen || e == Opened(true))
            && (q.prefilled ==> p.prefilled || (e.Prefilled? && e.ok))
            && (q.primed ==> p.primed || e == Primed(true))
            && (q.started ==> p.started || e == Started(true))
            && (q.armed ==> p.armed || e == Armed(true))
  {
    if e.Opened? || e.Prefilled? || e.Primed? || e.Started? || e.Armed? {
    } else {
      SetupUntouched(m, e);
      hide Step;
    }
  }

  lemma SetupUntouched(m: Monitor, e: Event)
    requires !e.Opened? && !e.Prefilled? && !e.Primed? && !e.Started? && !e.Armed?
    ensures Step(m, e).setup == m.setup.(confirmed := Step(m, e).setup.confirmed)
  {
    hide OnProvider;
    if e.Provider? {
      ProviderSetup(m, e.who, e.action, e.result);
    } else {
      SetupKept(m, e);
      hide Step;
    }
  }

  predicate KeepsSetup(m: Monitor, n: Monitor) {
    n.setup == m.setup.(confirmed := n.setup.confirmed)
  }

  lemma ProviderSetup(m: Monitor, who: Actor, action: PttAction, r: PttOperationResult)
    ensures KeepsSetup(m, OnProvider(m, who, action, r))
  {
    hide KeepsSetup, IsConfirmedUnkeyed, IsKeyed, OnKey, OnUnkeyConfirmed, OnQueried;
    KeySetup(m, IsKeyed(r), r.certainty.DefinitelyUnkeyed?);
    UnkeySetup(m, who);
    QuerySetup(m, IsConfirmedUnkeyed(r));
  }

  lemma QuerySetup(m: Monitor, confirmed: bool)
    ensures KeepsSetup(m, m) && KeepsSetup(m, OnQueried(m, confirmed))
  {
  }

  lemma KeySetup(m: Monitor, keyed: bool, unkeyed: bool)
    ensures KeepsSetup(m, OnKey(m, keyed, unkeyed))
  {
    hide MayKey, DangerOnKey, Failing;
  }

  lemma UnkeySetup(m: Monitor, who: Actor)
    ensures KeepsSetup(m, OnUnkeyConfirmed(m, who))
  {
  }

  lemma SetupKept(m: Monitor, e: Event)
    requires !e.Provider? && !e.Opened? && !e.Prefilled? && !e.Primed? && !e.Started? && !e.Armed?
    ensures Step(m, e).setup == m.setup
  {
    hide OnKey, OnCleanupRecorded, OnSetup, OnQueued, OnFinished, OnStatus, OnTeardown, OnFailure, OnBeat;
    hide OnTailBegun, OnTailEnded, MayKey, MayQueue, Failing;
  }

  lemma ConfirmedStep(m: Monitor, e: Event)
    ensures Step(m, e).setup.confirmed ==> m.setup.confirmed || IsConfirmation(e)
  {
    hide OnKey, OnCleanupRecorded, OnQueued, OnFinished, OnStatus;
    hide OnTeardown, OnFailure, OnBeat, OnTailBegun, OnTailEnded;
    hide IsKeyed, MayKey, MayQueue, Failing;
    if !e.Provider? && !e.Opened? && !e.Prefilled? && !e.Primed? && !e.Started? && !e.Armed? {
      SetupKept(m, e);
      hide Step;
    }
  }

  lemma BadStep(m: Monitor, e: Event)
    ensures m.bad ==> Step(m, e).bad
  {
    hide OnKey, OnUnkeyConfirmed, OnQueried, OnCleanupRecorded, OnSetup, OnQueued;
    hide OnFinished, OnStatus, OnTeardown, OnFailure, OnBeat, OnTailBegun, OnTailEnded;
    hide IsConfirmedUnkeyed, IsKeyed, MayKey, MayQueue, Failing;
  }

  lemma GatedStep(m: Monitor, e: Event)
    ensures m.signal.gated || e.Gated? ==> Step(m, e).signal.gated
  {
    hide OnKey, OnUnkeyConfirmed, OnQueried, OnCleanupRecorded, OnSetup;
    hide OnTeardown, OnFailure, OnBeat, OnTailBegun, OnTailEnded;
    hide IsConfirmedUnkeyed, IsKeyed, MayKey, MayQueue, Failing;
  }

  lemma ExpiredStep(m: Monitor, e: Event)
    ensures Step(m, e).danger.expired <==> m.danger.expired || e.Expired?
  {
    hide OnKey, OnProvider, OnCleanupRecorded, OnSetup, OnQueued, OnFinished, OnStatus, OnTeardown;
    hide OnFailure, OnBeat, OnTailBegun, OnTailEnded, MayKey, MayQueue, Failing;
  }

  lemma KeysStep(m: Monitor, e: Event)
    ensures Step(m, e).keys == m.keys + if IsKeyRequest(e) then 1 else 0
  {
    hide OnUnkeyConfirmed, OnQueried, OnCleanupRecorded, OnSetup, OnQueued, OnFinished;
    hide OnStatus, OnTeardown, OnFailure, OnBeat, OnTailBegun, OnTailEnded;
    hide IsConfirmedUnkeyed, IsKeyed, MayKey, MayQueue, Failing;
  }

  lemma ReleasedStep(m: Monitor, e: Event)
    ensures Step(m, e).teardown.released ==>
              m.teardown.released || (m.keys > 0 && e.CleanupRecorded? && e.who.RunThread?)
  {
    hide OnKey, OnUnkeyConfirmed, OnQueried, OnSetup, OnQueued;
    hide OnFinished, OnStatus, OnFailure, OnBeat, OnTailBegun, OnTailEnded;
    hide IsConfirmedUnkeyed, IsKeyed, MayKey, MayQueue, Failing;
  }

  lemma LateStep(m: Monitor, e: Event)
    ensures Step(m, e).lateFrames == m.lateFrames + if m.danger.expired then Accepted(e) else 0
  {
    hide OnKey, OnUnkeyConfirmed, OnQueried, OnCleanupRecorded, OnSetup, OnFinished;
    hide OnStatus, OnTeardown, OnFailure, OnBeat, OnTailBegun, OnTailEnded;
    hide IsConfirmedUnkeyed, IsKeyed, MayKey, MayQueue, Failing;
  }

  predicate IsUnkeyedReply(e: Event) {
    e.Provider? && !e.action.Query? && e.result.certainty.DefinitelyUnkeyed?
  }

  lemma UnkeyedStep(m: Monitor, e: Event)
    ensures Step(m, e).danger.unkeyedAfterKey <==>
              m.danger.unkeyedAfterKey || (IsUnkeyedReply(e) && (m.keys > 0 || IsKeyRequest(e)))
  {
    hide OnKey, OnProvider, OnSetup, OnQueued, OnFinished, OnStatus, OnTeardown, OnFailure, OnBeat;
    hide OnTailBegun, OnTailEnded, IsConfirmedUnkeyed, IsKeyed, MayKey, MayQueue, Failing;
    KeyUnkeyed(m, false, false);
    if e.Provider? {
      ProviderUnkeyed(m, e.who, e.action, e.result);
    } else if !e.Refused? && !e.CleanupRecorded? {
      OtherUnkeyed(m, e);
      hide Step;
    }
  }

  lemma OtherUnkeyed(m: Monitor, e: Event)
    requires !e.Provider? && !e.Refused? && !e.CleanupRecorded?
    ensures Step(m, e).danger.unkeyedAfterKey == m.danger.unkeyedAfterKey
  {
    hide OnSetup, OnQueued, OnFinished, OnStatus, OnTeardown, OnFailure, OnBeat, OnTailBegun, OnTailEnded;
  }

  lemma KeyUnkeyed(m: Monitor, keyed: bool, unkeyed: bool)
    ensures OnKey(m, keyed, unkeyed).danger.unkeyedAfterKey == (m.danger.unkeyedAfterKey || unkeyed)
  {
    hide MayKey, Failing;
  }

  lemma ProviderUnkeyed(m: Monitor, who: Actor, action: PttAction, r: PttOperationResult)
    ensures OnProvider(m, who, action, r).danger.unkeyedAfterKey <==>
              m.danger.unkeyedAfterKey || (!action.Query? && r.certainty.DefinitelyUnkeyed? && (m.keys > 0 || action.Key?))
  {
    hide OnKey, OnQueried, IsConfirmedUnkeyed, IsKeyed;
    KeyUnkeyed(m, IsKeyed(r), r.certainty.DefinitelyUnkeyed?);
  }

  lemma ConfirmationStep(m: Monitor, e: Event)
    ensures Step(m, e).danger.watchdogConfirmed <==>
              IsWatchdogConfirmation(e) || (m.danger.watchdogConfirmed && !IsWatchdogRecord(e))
  {
    hide OnQueried, OnSetup, OnQueued, OnFinished, OnStatus, OnTeardown, OnFailure, OnBeat, OnTailBegun, OnTailEnded;
    hide IsConfirmedUnkeyed, IsKeyed, MayKey, MayQueue, Failing;
  }

  lemma PendingStep(m: Monitor, e: Event)
    ensures Step(m, e).danger.pendingStale <==>
              if IsKeyRequest(e) then m.danger.watchdogConfirmed else m.danger.pendingStale && !IsWatchdogRecord(e)
  {
    hide OnQueried, OnSetup, OnQueued, OnFinished, OnStatus, OnTeardown, OnFailure, OnBeat, OnTailBegun, OnTailEnded;
    hide IsConfirmedUnkeyed, IsKeyed, MayKey, MayQueue, Failing;
  }

  lemma StaleStep(m: Monitor, e: Event)
    ensures Step(m, e).danger.lastStale <==>
              if IsRecord(e) then IsWatchdogRecord(e) && m.danger.pendingStale else m.danger.lastStale
  {
    hide OnQueried, OnSetup, OnQueued, OnFinished, OnStatus, OnTeardown, OnFailure, OnBeat, OnTailBegun, OnTailEnded;
    hide IsConfirmedUnkeyed, IsKeyed, MayKey, MayQueue, Failing;
  }

  lemma TailStep(m: Monitor, e: Event)
    ensures !e.TailBegun? && !e.TailEnded? && !e.Beat? ==> Step(m, e).tail == m.tail
    ensures !Step(m, e).bad && e.TailBegun? ==> !m.tail.begun
    ensures !Step(m, e).bad && e.TailEnded? ==> m.tail.begun && !m.tail.ended
  {
    hide OnKey, OnUnkeyConfirmed, OnQueried, OnCleanupRecorded, OnSetup;
    hide OnQueued, OnFinished, OnStatus, OnTeardown, OnFailure, OnBeat;
    hide IsConfirmedUnkeyed, IsKeyed, MayKey, MayQueue, Failing;
  }

  lemma {:induction false} BadIsSticky(log: seq<Event>, n: nat)
    requires n <= |log|
    ensures Watch(log[..n]).bad ==> Watch(log).bad
    decreases |log|
  {
    if n == |log| {
      assert log[..n] == log;
    } else {
      hide Watch, Step;
      WatchLast(log);
      BadStep(Watch(log[..|log| - 1]), log[|log| - 1]);
      var prior := log[..|log| - 1];
      assert prior[..n] == log[..n];
      BadIsSticky(prior, n);
    }
  }

  /** The monitor just before an event of an acceptable log. */
  lemma JustBefore(log: seq<Event>, k: nat)
    requires !Watch(log).bad && k < |log|
    ensures !Watch(log[..k]).bad && !Watch(log[..k + 1]).bad
    ensures Watch(log[..k + 1]) == Step(Watch(log[..k]), log[k])
  {
    hide Watch;
    BadIsSticky(log, k);
    BadIsSticky(log, k + 1);
    assert log[..k + 1] == log[..k] + [log[k]];
    WatchAppend(log[..k], log[k]);
  }

  /** Each setup flag stands for a successful action earlier in the log. */
  lemma {:induction false} SetupHappened(log: seq<Event>)
    ensures var p := Watch(log).setup;
            && (p.confirmed ==> exists i :: 0 <= i < |log| && IsConfirmation(log[i]))
            && (p.audioOpen ==> Opened(true) in log)
            && (p.prefilled ==> exists i :: 0 <= i < |log| && log[i].Prefilled? && log[i].ok)
            && (p.primed ==> Primed(true) in log)
            && (p.started ==> Started(true) in log)
            && (p.armed ==> Armed(true) in log)
  {
    hide Watch, Step;
    WatchNothing();
    if log != [] {
      WatchLast(log);
      SetupStep(Watch(log[..|log| - 1]), log[|log| - 1]);
      ConfirmedStep(Watch(log[..|log| - 1]), log[|log| - 1]);
      SetupHappened(log[..|log| - 1]);
    }
  }

  lemma {:induction false} KeysCounted(log: seq<Event>, i: nat)
    requires i < |log| && IsKeyRequest(log[i])
    ensures Watch(log).keys >= 1
  {
    hide Watch, Step;
    WatchLast(log);
    KeysStep(Watch(log[..|log| - 1]), log[|log| - 1]);
    if i < |log| - 1 {
      KeysCounted(log[..|log| - 1], i);
    }
  }

  lemma {:induction false} KeyHappened(log: seq<Event>) returns (k: nat)
    requires Watch(log).keys > 0
    ensures k < |log| && IsKeyRequest(log[k])
  {
    hide Watch, Step, IsKeyRequest;
    WatchNothing();
    WatchLast(log);
    KeysStep(Watch(log[..|log| - 1]), log[|log| - 1]);
    if IsKeyRequest(log[|log| - 1]) {
      k := |log| - 1;
    } else {
      k := KeyHappened(log[..|log| - 1]);
    }
  }

  lemma {:induction false} GateCounted(log: seq<Event>, i: nat)
    requires i < |log| && log[i].Gated?
    ensures Watch(log).signal.gated
  {
    hide Watch, Step;
    WatchLast(log);
    GatedStep(Watch(log[..|log| - 1]), log[|log| - 1]);
    if i < |log| - 1 {
      GateCounted(log[..|log| - 1], i);
    }
  }

  lemma {:induction false} KeyedHappened(log: seq<Event>)
    requires Watch(log).keyOk
    ensures exists i :: 0 <= i < |log| && log[i].Provider? && log[i].action.Key? && IsKeyed(log[i].result)
  {
    hide Watch;
    WatchNothing();
    if log != [] {
      WatchLast(log);
      var prior, last := log[..|log| - 1], log[|log| - 1];
      if IsKeyRequest(last) {
        assert last.Provider? && IsKeyed(last.result);
      } else {
        KeyedHappened(prior);
      }
    }
  }

  /** PTT is requested to key at most once. */
  lemma KeyedOnce(log: seq<Event>, i: nat, j: nat)
    requires !Watch(log).bad && i < j < |log| && IsKeyRequest(log[i])
    ensures !IsKeyRequest(log[j])
  {
    hide Watch;
    if IsKeyRequest(log[j]) {
      JustBefore(log, j);
      KeysCounted(log[..j], i);
    }
  }

  /** ... and only after PTT was confirmed unkeyed, audio was opened, prefilled, primed and
      started, and the watchdog armed, all successfully and with no fault so far. */
  lemma KeyedAfterSetup(log: seq<Event>, k: nat)
    requires !Watch(log).bad && k < |log| && IsKeyRequest(log[k])
    ensures exists i :: 0 <= i < k && IsConfirmation(log[i])
    ensures Opened(true) in log[..k] && Primed(true) in log[..k] && Started(true) in log[..k] && Armed(true) in log[..k]
    ensures exists i :: 0 <= i < k && log[i].Prefilled? && log[i].ok
    ensures Gated !in log[..k]
  {
    hide Watch;
    JustBefore(log, k);
    SetupHappened(log[..k]);
    var c :| 0 <= c < |log[..k]| && IsConfirmation(log[..k][c]);
    assert IsConfirmation(log[c]);
    var p :| 0 <= p < |log[..k]| && log[..k][p].Prefilled? && log[..k][p].ok;
    assert log[p].Prefilled? && log[p].ok;
    forall i | 0 <= i < k ensures !log[i].Gated? {
      if log[i].Gated? {
        GateCounted(log[..k], i);
      }
    }
  }

  /** Signal is offered to the endpoint only after an error-free, definitely keyed reply and
      never after a fault. */
  lemma SignalAfterKeyed(log: seq<Event>, q: nat)
    requires !Watch(log).bad && q < |log| && log[q].Queued?
    ensures exists i :: 0 <= i < q && log[i].Provider? && log[i].action.Key? && IsKeyed(log[i].result)
    ensures Gated !in log[..q]
  {
    hide Watch;
    JustBefore(log, q);
    KeyedHappened(log[..q]);
    var c :| 0 <= c < |log[..q]| && log[..q][c].Provider? && log[..q][c].action.Key? && IsKeyed(log[..q][c].result);
    assert log[c].Provider?;
    forall i | 0 <= i < q ensures !log[i].Gated? {
      if log[i].Gated? {
        GateCounted(log[..q], i);
      }
    }
  }

  function AcceptedFrom(log: seq<Event>, start: nat): nat {
    if |log| <= start then 0 else AcceptedFrom(log[..|log| - 1], start) + Accepted(log[|log| - 1])
  }

  lemma {:induction false} ExpiryIsSticky(log: seq<Event>, x: nat)
    requires x < |log| && log[x].Expired?
    ensures Watch(log).danger.expired
  {
    hide Watch, Step;
    WatchLast(log);
    ExpiredStep(Watch(log[..|log| - 1]), log[|log| - 1]);
    if x < |log| - 1 {
      ExpiryIsSticky(log[..|log| - 1], x);
    }
  }

  lemma {:induction false} ExpiryHappened(log: seq<Event>)
    ensures Watch(log).danger.expired ==> Expired in log
  {
    hide Watch, Step;
    WatchNothing();
    if log != [] {
      WatchLast(log);
      ExpiredStep(Watch(log[..|log| - 1]), log[|log| - 1]);
      ExpiryHappened(log[..|log| - 1]);
    }
  }

  /** The monitor's late frames bound everything accepted after an expiry. */
  lemma {:induction false} LateFramesBound(log: seq<Event>, x: nat)
    requires x < |log| && log[x].Expired?
    ensures AcceptedFrom(log, x) <= Watch(log).lateFrames
  {
    hide Watch, Step;
    WatchLast(log);
    LateStep(Watch(log[..|log| - 1]), log[|log| - 1]);
    var prior := log[..|log| - 1];
    if x < |log| - 1 {
      LateFramesBound(prior, x);
      ExpiryIsSticky(prior, x);
    } else {
      assert AcceptedFrom(prior, x) == 0;
    }
  }

  /** Audio is stopped only after the run thread put its PTT cleanup on record. */
  lemma {:induction false} ReleaseHappened(log: seq<Event>, k: nat)
    requires !Watch(log).bad && k < |log| && IsKeyRequest(log[k]) && Watch(log).teardown.released
    ensures exists r :: k < r < |log| && log[r].CleanupRecorded? && log[r].who.RunThread?
  {
    hide Watch, Step, MayKey;
    WatchLast(log);
    var prior, last := log[..|log| - 1], log[|log| - 1];
    ReleasedStep(Watch(prior), last);
    BadStep(Watch(prior), last);
    if !Watch(prior).teardown.released {
      assert log[|log| - 1].CleanupRecorded? && !IsKeyRequest(last);
    } else if k < |prior| {
      ReleaseHappened(prior, k);
    } else {
      ReleasedAfterKey(prior);
      KeyForbidden(Watch(prior), last);
    }
  }

  lemma KeyForbidden(m: Monitor, e: Event)
    requires m.keys > 0 && IsKeyRequest(e)
    ensures Step(m, e).bad
  {
  }

  lemma {:induction false} ReleasedAfterKey(log: seq<Event>)
    ensures Watch(log).teardown.released ==> Watch(log).keys > 0
  {
    hide Watch, Step;
    WatchNothing();
    if log != [] {
      WatchLast(log);
      ReleasedStep(Watch(log[..|log| - 1]), log[|log| - 1]);
      KeysStep(Watch(log[..|log| - 1]), log[|log| - 1]);
      ReleasedAfterKey(log[..|log| - 1]);
    }
  }

  lemma StopAfterRelease(log: seq<Event>, k: nat, s: nat)
    requires !Watch(log).bad && k < s < |log| && IsKeyRequest(log[k]) && log[s].StopRequested?
    ensures exists r :: k < r < s && log[r].CleanupRecorded? && log[r].who.RunThread?
  {
    hide Watch;
    JustBefore(log, s);
    KeysCounted(log[..s], k);
    ReleaseHappened(log[..s], k);
    var r :| k < r < |log[..s]| && log[..s][r].CleanupRecorded? && log[..s][r].who.RunThread?;
    assert log[r].CleanupRecorded?;
  }

  /** A provider reply, no earlier than the key request, that says definitely unkeyed. */
  predicate UnkeyedNoEarlier(log: seq<Event>, k: nat) {
    exists i :: k <= i < |log| && IsUnkeyedReply(log[i])
  }

  lemma {:induction false} UnkeyedHappened(log: seq<Event>, k: nat)
    requires k < |log| && IsKeyRequest(log[k])
    requires forall i :: 0 <= i < k ==> !IsKeyRequest(log[i])
    ensures Watch(log).danger.unkeyedAfterKey <==> UnkeyedNoEarlier(log, k)
  {
    hide Watch, Step, IsUnkeyedReply, IsKeyRequest;
    WatchLast(log);
    var prior, last := log[..|log| - 1], log[|log| - 1];
    UnkeyedStep(Watch(prior), last);
    if k < |prior| {
      UnkeyedHappened(prior, k);
      KeysCounted(prior, k);
      if UnkeyedNoEarlier(prior, k) {
        var i :| k <= i < |prior| && IsUnkeyedReply(prior[i]);
        assert IsUnkeyedReply(log[i]);
      }
    } else {
      NoKeyNoUnkey(prior);
    }
  }

  lemma {:induction false} NoKeyNoUnkey(log: seq<Event>)
    requires forall i :: 0 <= i < |log| ==> !IsKeyRequest(log[i])
    ensures Watch(log).keys == 0 && !Watch(log).danger.unkeyedAfterKey
  {
    hide Watch, Step;
    WatchNothing();
    if log != [] {
      WatchLast(log);
      UnkeyedStep(Watch(log[..|log| - 1]), log[|log| - 1]);
      KeysStep(Watch(log[..|log| - 1]), log[|log| - 1]);
      NoKeyNoUnkey(log[..|log| - 1]);
    }
  }

  // -------------------------------------------------- outdated records, by position

  /** The watchdog obtained a definite unkey at i and has not recorded it up to `end`. */
  predicate IsOpen(log: seq<Event>, i: int, end: int) {
    && 0 <= i < end <= |log| && IsWatchdogConfirmation(log[i])
    && forall r :: i < r < end ==> !IsWatchdogRecord(log[r])
  }

  /** The last safety record, at r, is of an unkey that the watchdog obtained at i, before
      the key request at k. */
  predicate IsOutdated(log: seq<Event>, i: int, k: int, r: int) {
    && 0 <= i < k < r < |log| && IsOpen(log, i, r) && IsKeyRequest(log[k]) && IsWatchdogRecord(log[r])
    && forall q :: r < q < |log| ==> !IsRecord(log[q])
  }

  ghost predicate OutdatedLast(log: seq<Event>, k: int) {
    exists i, r :: IsOutdated(log, i, k, r)
  }

  lemma {:induction false} ConfirmedExactly(log: seq<Event>)
    ensures Watch(log).danger.watchdogConfirmed <==> exists i :: IsOpen(log, i, |log|)
  {
    hide Watch, Step, IsWatchdogConfirmation, IsWatchdogRecord;
    WatchNothing();
    if log != [] {
      WatchLast(log);
      var prior, last := log[..|log| - 1], log[|log| - 1];
      ConfirmationStep(Watch(prior), last);
      ConfirmedExactly(prior);
      if i :| IsOpen(log, i, |log|) {
        assert i < |prior| ==> IsOpen(prior, i, |prior|) && !IsWatchdogRecord(log[|log| - 1]);
      }
      if IsWatchdogConfirmation(last) {
        assert IsOpen(log, |log| - 1, |log|);
      } else if Watch(log).danger.watchdogConfirmed {
        var i :| IsOpen(prior, i, |prior|);
        assert IsOpen(log, i, |log|);
      }
    }
  }

  lemma {:induction false} PendingExactly(log: seq<Event>)
    ensures Watch(log).danger.pendingStale <==>
              exists i, k :: 0 <= i < k < |log| && IsOpen(log, i, |log|) && IsKeyRequest(log[k])
  {
    hide Watch, Step, IsWatchdogConfirmation, IsWatchdogRecord;
    WatchNothing();
    if log != [] {
      WatchLast(log);
      var prior, last := log[..|log| - 1], log[|log| - 1];
      PendingStep(Watch(prior), last);
      PendingExactly(prior);
      ConfirmedExactly(prior);
      NotBoth(last);
      if i, k :| 0 <= i < k < |log| && IsOpen(log, i, |log|) && IsKeyRequest(log[k]) {
        assert IsOpen(prior, i, |prior|) && !IsWatchdogRecord(log[|log| - 1]);
        assert k < |prior| ==> IsKeyRequest(prior[k]);
      }
      if Watch(log).danger.pendingStale {
        if IsKeyRequest(last) {
          var i :| IsOpen(prior, i, |prior|);
          assert IsOpen(log, i, |log|) && IsKeyRequest(log[|log| - 1]);
        } else {
          var i, k :| 0 <= i < k < |prior| && IsOpen(prior, i, |prior|) && IsKeyRequest(prior[k]);
          assert IsOpen(log, i, |log|) && IsKeyRequest(log[k]);
        }
      }
    }
  }

  lemma NotBoth(e: Event)
    ensures !(IsKeyRequest(e) && IsWatchdogRecord(e)) && (IsWatchdogRecord(e) ==> IsRecord(e))
  {
  }

  lemma {:induction false} StaleExactly(log: seq<Event>)
    ensures Watch(log).danger.lastStale <==> exists i, k, r :: IsOutdated(log, i, k, r)
  {
    hide Watch, Step, IsWatchdogConfirmation, IsWatchdogRecord, IsRecord;
    WatchNothing();
    if log != [] {
      WatchLast(log);
      var prior, last := log[..|log| - 1], log[|log| - 1];
      StaleStep(Watch(prior), last);
      StaleExactly(prior);
      PendingExactly(prior);
      NotBoth(last);
      if i, k, r :| IsOutdated(log, i, k, r) {
        assert r < |prior| ==> !IsRecord(log[|log| - 1]) && IsOpen(prior, i, r) && IsOutdated(prior, i, k, r);
        assert r == |prior| ==> IsOpen(prior, i, |prior|) && IsKeyRequest(prior[k]);
      }
      if Watch(log).danger.lastStale {
        if IsRecord(last) {
          var i, k :| 0 <= i < k < |prior| && IsOpen(prior, i, |prior|) && IsKeyRequest(prior[k]);
          assert IsOpen(log, i, |prior|) && IsOutdated(log, i, k, |log| - 1);
        } else {
          var i, k, r :| IsOutdated(prior, i, k, r);
          assert IsOpen(log, i, r) && IsOutdated(log, i, k, r);
        }
      }
    }
  }

  // ------------------------------------------- when unkey and record are one step

  /** No key request falls between a watchdog's confirmed unkey and its record. */
  predicate PairsUndivided(log: seq<Event>) {
    forall i, k :: 0 <= i < k < |log| && IsWatchdogConfirmation(log[i]) && IsKeyRequest(log[k]) ==>
                     exists r :: i < r < k && IsWatchdogRecord(log[r])
  }

  /** If the pairs are undivided, no outdated record is ever written. */
  lemma UndividedNeverStale(log: seq<Event>)
    requires PairsUndivided(log)
    ensures !Watch(log).danger.pendingStale && !Watch(log).danger.lastStale
  {
    hide Watch;
    PendingExactly(log);
    StaleExactly(log);
  }

  // ------------------------------------------------------------ the post-audio tail

  /** A heartbeat that fails within the duration of the tail. */
  predicate IsFailedWithin(beat: Event, begin: Event) {
    beat.Beat? && !beat.ok && begin.TailBegun? && beat.at < begin.at + begin.duration
  }

  /** Such a heartbeat occurs after b and before e. */
  predicate IsCut(log: seq<Event>, b: int, e: int) {
    && 0 <= b < |log| && e <= |log|
    && exists i :: b < i < e && IsFailedWithin(log[i], log[b])
  }

  lemma CutPrior(log: seq<Event>, b: int, e: int)
    requires 0 <= b < |log| - 1 && e <= |log| - 1
    ensures IsCut(log[..|log| - 1], b, e) <==> IsCut(log, b, e)
  {
    hide IsFailedWithin;
    var prior := log[..|log| - 1];
    assert forall i :: b < i < e ==> prior[i] == log[i];
  }

  lemma CutNext(log: seq<Event>, b: int, e: int)
    requires 0 <= b < e < |log|
    ensures IsCut(log, b, e + 1) <==> IsCut(log, b, e) || IsFailedWithin(log[e], log[b])
  {
    hide IsFailedWithin;
  }

  lemma BeatStep(m: Monitor, e: Event)
    requires e.Beat?
    ensures Step(m, e).tail ==
            m.tail.(cut := m.tail.cut || (!e.ok && m.tail.begun && !m.tail.ended && e.at < m.tail.begunAt + m.tail.duration))
  {
  }

  lemma TailEndStep(m: Monitor, e: Event)
    ensures e.TailBegun? ==> Step(m, e).tail == Tail(true, e.at, e.duration, false, 0, false)
    ensures e.TailEnded? ==> Step(m, e).tail == m.tail.(ended := true, endedAt := e.at)
  {
  }

  /** The tail of a log is cut exactly if a heartbeat failed between its beginning and its
      end, before its duration had passed. */
  lemma {:induction false} TailExactly(log: seq<Event>) returns (b: nat, e: nat)
    requires !Watch(log).bad && Watch(log).tail.begun
    ensures b < |log| && log[b] == TailBegun(Watch(log).tail.begunAt, Watch(log).tail.duration)
    ensures if Watch(log).tail.ended then b < e < |log| && log[e] == TailEnded(Watch(log).tail.endedAt) else e == |log|
    ensures Watch(log).tail.cut <==> IsCut(log, b, e)
  {
    hide Watch, Step;
    WatchNothing();
    WatchLast(log);
    var prior, last := log[..|log| - 1], log[|log| - 1];
    var m := Watch(prior);
    BadStep(m, last);
    TailStep(m, last);
    TailEndStep(m, last);
    if last.TailBegun? {
      b, e := |log| - 1, |log|;
    } else {
      if last.Beat? {
        BeatStep(m, last);
      }
      b, e := TailExactly(prior);
      CutPrior(log, b, e);
      if !m.tail.ended {
        CutNext(log, b, |log| - 1);
        e := if last.TailEnded? then |log| - 1 else |log|;
      }
    }
  }

  // ---------------------------------------------------------------- what went wrong

  /** A refusal, a failure or a fault that the session meets. */
  predicate IsTroubling(e: Event) {
    match e
    case Refused(who, action) => action.Key?
    case Provider(who, action, result) => action.Key? && !IsKeyed(result)
    case CleanupRecorded(who, cleanup) => who.RunThread? && cleanup.hasHazard
    case Opened(ok) => !ok
    case Prefilled(frames, ok) => !ok
    case Primed(ok) => !ok
    case Started(ok) => !ok
    case Armed(ok) => !ok
    case Beat(ok, at) => !ok
    case StopRequested(ok) => !ok
    case Stopped(ok) => !ok
    case Closed(ok) => !ok
    case Queued(offered, accepted) => accepted > |offered|
    case StatusRead(status) => !status.fault.NoFault?
    case WatchdogMissing => true
    case SourceFailed => true
    case DrainTimedOut => true
    case _ => false
  }

  lemma TroubleStep(m: Monitor, e: Event)
    ensures Step(m, e).trouble == NO_TROUBLE <==> m.trouble == NO_TROUBLE && !IsTroubling(e)
  {
    hide OnUnkeyConfirmed, OnQueried, OnFinished, OnTailBegun, OnTailEnded, IsConfirmedUnkeyed, MayKey, MayQueue;
  }

  lemma {:induction false} UntroubledExactly(log: seq<Event>)
    ensures Watch(log).trouble == NO_TROUBLE <==> forall i :: 0 <= i < |log| ==> !IsTroubling(log[i])
  {
    hide Watch, Step, IsTroubling;
    WatchNothing();
    if log != [] {
      WatchLast(log);
      var prior := log[..|log| - 1];
      TroubleStep(Watch(prior), log[|log| - 1]);
      UntroubledExactly(prior);
      assert forall i :: 0 <= i < |prior| ==> prior[i] == log[i];
    }
  }

  lemma FaultStep(m: Monitor, e: Event)
    ensures Step(m, e).trouble.fault ==
            if e.StatusRead? && !e.status.fault.NoFault? then e.status.fault else m.trouble.fault
    ensures Step(m, e).trouble.overReported <==> m.trouble.overReported || (e.Queued? && e.accepted > |e.offered|)
  {
    hide OnUnkeyConfirmed, OnQueried, OnFinished, OnTailBegun, OnTailEnded, IsConfirmedUnkeyed, MayKey, MayQueue;
  }

  /** The fault that explains a session is the last one its endpoint reported. */
  lemma {:induction false} FaultReported(log: seq<Event>) returns (i: nat)
    requires !Watch(log).trouble.fault.NoFault?
    ensures i < |log| && log[i].StatusRead? && log[i].status.fault == Watch(log).trouble.fault
    ensures forall j :: i < j < |log| && log[j].StatusRead? ==> log[j].status.fault.NoFault?
  {
    hide Watch, Step;
    WatchNothing();
    WatchLast(log);
    var prior, last := log[..|log| - 1], log[|log| - 1];
    FaultStep(Watch(prior), last);
    if last.StatusRead? && !last.status.fault.NoFault? {
      i := |log| - 1;
    } else {
      i := FaultReported(prior);
      assert forall j :: i < j < |prior| ==> log[j] == prior[j];
    }
  }

  /** The event is cause for reporting this fault. */
  predicate IsCause(e: Event, code: TransmitError) {
    match e
    case Refused(who, action) => action.Key? && code.KeyFailure?
    case Provider(who, action, result) => action.Key? && !IsKeyed(result) && code.KeyFailure?
    case CleanupRecorded(who, cleanup) => who.RunThread? && cleanup.hasHazard && code.CleanupFailure?
    case Opened(ok) => !ok && code.AudioFailure?
    case Prefilled(frames, ok) => !ok && code.AudioFailure?
    case Primed(ok) => !ok && code.AudioFailure?
    case Started(ok) => !ok && code.AudioFailure?
    case Armed(ok) => !ok && code.WatchdogFailure?
    case Beat(ok, at) => !ok && (code.WatchdogFailure? || code.CancelledByUser?)
    case StopRequested(ok) => !ok && code.CleanupFailure?
    case Stopped(ok) => !ok && code.CleanupFailure?
    case Closed(ok) => !ok && code.CleanupFailure?
    case Queued(offered, accepted) => accepted > |offered| && code.AudioFailure?
    case StatusRead(status) => !status.fault.NoFault? && code == AudioFaultCode(status.fault)
    case WatchdogMissing => code.WatchdogFailure?
    case SourceFailed => code.SourceFailure?
    case DrainTimedOut => code.DrainTimeout?
    case _ => false
  }

  predicate IsPttEvent(e: Event) {
    e.Refused? || e.Provider? || e.CleanupRecorded?
  }

  predicate IsSetupEvent(e: Event) {
    e.Opened? || e.Prefilled? || e.Primed? || e.Started? || e.Armed?
  }

  predicate IsTeardownEvent(e: Event) {
    e.StopRequested? || e.Stopped? || e.Closed?
  }

  predicate IsFailure(e: Event) {
    e.WatchdogMissing? || e.SourceFailed? || e.DrainTimedOut?
  }

  lemma CauseStep(m: Monitor, e: Event, code: TransmitError)
    ensures code in Step(m, e).trouble.causes <==> code in m.trouble.causes || IsCause(e, code)
  {
    hide Step, IsCause, OnStatus, OnQueued;
    if IsPttEvent(e) {
      PttCause(m, e, code);
    } else if IsSetupEvent(e) {
      SetupCause(m, e, code);
    } else if IsTeardownEvent(e) {
      TeardownCause(m, e, code);
    } else if e.StatusRead? {
      StatusStep(m, e.status);
      StatusCause(m, e.status, code);
    } else if e.Queued? {
      QueuedStep(m, e.offered, e.accepted);
      QueuedCause(m, e.offered, e.accepted, code);
    } else if IsFailure(e) {
      FailureCause(m, e, code);
    } else if e.Beat? {
      BeatCause(m, e.ok, e.at, code);
    } else {
      OtherCause(m, e, code);
    }
  }

  lemma PttCause(m: Monitor, e: Event, code: TransmitError)
    requires IsPttEvent(e)
    ensures code in Step(m, e).trouble.causes <==> code in m.trouble.causes || IsCause(e, code)
  {
    hide OnUnkeyConfirmed, OnQueried, IsConfirmedUnkeyed, IsKeyed, MayKey;
  }

  lemma SetupTrouble(m: Monitor, e: Event)
    requires IsSetupEvent(e)
    ensures Step(m, e).trouble == Failing(m.trouble, e.ok, if e.Armed? then WatchdogFailure else AudioFailure)
  {
    hide OnSetup, Failing;
  }

  lemma SetupCause(m: Monitor, e: Event, code: TransmitError)
    requires IsSetupEvent(e)
    ensures code in Step(m, e).trouble.causes <==> code in m.trouble.causes || IsCause(e, code)
  {
    hide Step;
    SetupTrouble(m, e);
  }

  lemma TeardownTrouble(m: Monitor, e: Event)
    requires IsTeardownEvent(e)
    ensures Step(m, e).trouble == Failing(m.trouble, e.ok, CleanupFailure)
  {
    hide OnTeardown, Failing;
  }

  lemma TeardownCause(m: Monitor, e: Event, code: TransmitError)
    requires IsTeardownEvent(e)
    ensures code in Step(m, e).trouble.causes <==> code in m.trouble.causes || IsCause(e, code)
  {
    hide Step;
    TeardownTrouble(m, e);
  }

  lemma StatusCause(m: Monitor, status: AudioStatus, code: TransmitError)
    ensures code in OnStatus(m, status).trouble.causes <==> code in m.trouble.causes || IsCause(StatusRead(status), code)
  {
    hide AudioFaultCode;
  }

  lemma QueuedCause(m: Monitor, offered: seq<Sample>, accepted: nat, code: TransmitError)
    ensures code in OnQueued(m, offered, accepted).trouble.causes <==>
              code in m.trouble.causes || IsCause(Queued(offered, accepted), code)
  {
    hide MayQueue;
  }

  lemma FailureCause(m: Monitor, e: Event, code: TransmitError)
    requires IsFailure(e)
    ensures code in Step(m, e).trouble.causes <==> code in m.trouble.causes || IsCause(e, code)
  {
    hide Step, OnFailure;
    FailureStep(m, e);
  }

  lemma BeatCause(m: Monitor, ok: bool, at: int, code: TransmitError)
    ensures code in Step(m, Beat(ok, at)).trouble.causes <==> code in m.trouble.causes || IsCause(Beat(ok, at), code)
  {
    hide OnBeat;
  }

  lemma OtherCause(m: Monitor, e: Event, code: TransmitError)
    requires !IsPttEvent(e) && !IsSetupEvent(e) && !IsTeardownEvent(e) && !e.StatusRead?
    requires !e.Queued? && !e.Beat? && !IsFailure(e)
    ensures code in Step(m, e).trouble.causes <==> code in m.trouble.causes || IsCause(e, code)
  {
    hide OnFinished, OnTailBegun, OnTailEnded;
  }

  lemma {:induction false} CausesExactly(log: seq<Event>, code: TransmitError)
    ensures code in Watch(log).trouble.causes <==> exists i :: 0 <= i < |log| && IsCause(log[i], code)
  {
    hide Watch, Step, IsCause;
    WatchNothing();
    if log != [] {
      WatchLast(log);
      var prior := log[..|log| - 1];
      CauseStep(Watch(prior), log[|log| - 1], code);
      CausesExactly(prior, code);
      assert forall i :: 0 <= i < |prior| ==> prior[i] == log[i];
      if IsCause(log[|log| - 1], code) {
      } else if i :| 0 <= i < |prior| && IsCause(prior[i], code) {
        assert IsCause(log[i], code);
      }
    }
  }
}
