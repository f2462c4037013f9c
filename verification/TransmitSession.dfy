/** The body of TransmitCoordinator::run (src/app/transmit_coordinator.cpp) once PTT was
    confirmed unkeyed: one RunContext, its helper lambdas and its phases. */
module TransmitSession {
  import opened Ptt
  import opened TransmitLog
  import opened TransmitWorld
  import opened PttSupervision
  import opened TransmitTypes

  /** The run thread's private bookkeeping that the invariant ties to the log. */
  datatype Books = Books(
    samples: seq<Sample>, blockFrames: nat, tail: int, isWatched: bool, hasFault: bool, error: TransmitError,
    wasCancelled: bool, audioIsOpen: bool, submitted: nat)

  predicate SessionInv(s: Shared, b: Books) {
    var m := MonitorOf(s);
    && Inv(s) && !s.dog.stopRequested
    && b.isWatched == !s.dog.worker.Absent?
    && (!b.isWatched ==> !s.dog.hasExpired && !s.dog.isArmed && s.dog.expiry <= s.now)
    && !m.bad
    && m.signal.gated == b.hasFault
    && m.setup.audioOpen == b.audioIsOpen
    && m.signal.queued <= b.samples
    && |m.signal.queued| == b.submitted
    && m.lateFrames <= b.blockFrames
    && (m.lateFrames > 0 ==> m.danger.expired)
    && (b.hasFault ==> Grounds(s, b.error)) && (!b.hasFault ==> b.error.NoTransmitError?)
    && (b.wasCancelled ==> s.cancelled || s.shuttingDown)
  }

  /** What a fault code says about the session. */
  predicate Explained(s: Shared, code: TransmitError) {
    || (code.CancelledByUser? && (s.cancelled || s.shuttingDown))
    || (code.WatchdogFailure? && s.dog.hasExpired)
    || (!MonitorOf(s).trouble.fault.NoFault? && code == AudioFaultCode(MonitorOf(s).trouble.fault))
  }

  lemma SessionQuiet(s: Shared, t: Shared, b: Books)
    requires SessionInv(s, b) && Quiet(s, t)
    requires MonitorOf(t).signal.gated == MonitorOf(s).signal.gated
    ensures SessionInv(t, b)
  {
    hide Watch;
  }

  /** The gate closes on the first fault. */
  lemma SessionFaulted(s: Shared, t: Shared, b: Books, code: TransmitError)
    requires SessionInv(s, b) && Quiet(s, t) && !b.hasFault
    requires MonitorOf(t).signal.gated && Grounds(s, code)
    ensures SessionInv(t, b.(hasFault := true, error := code)) && Grounds(t, code)
  {
    hide Watch;
  }

  /** From a successful arm on, an unexpired watchdog is armed. */
  predicate Guarded(s: Shared) {
    s.dog.isArmed || s.dog.hasExpired
  }

  lemma SessionRely(s: Shared, t: Shared, b: Books)
    requires SessionInv(s, b) && Rely(s, t)
    ensures SessionInv(t, b) && Quiet(s, t) && MonitorOf(t) == MonitorOf(s).(danger := MonitorOf(t).danger)
    ensures (s.cancelled ==> t.cancelled) && (s.shuttingDown ==> t.shuttingDown)
    ensures s.dog.hasExpired ==> t.dog.hasExpired
    ensures Guarded(s) ==> Guarded(t)
  {
    hide Watch;
    RelyIsQuiet(s, t);
  }

  lemma SessionStatus(s: Shared, status: AudioStatus, b: Books)
    requires SessionInv(s, b)
    ensures var t := Emit(s, StatusRead(status));
            SessionInv(t, b) && Quiet(s, t) && MonitorOf(t) == OnStatus(MonitorOf(s), status)
  {
    hide Watch;
    StatusQuiet(s, status);
  }

  lemma CancelledBooks(s: Shared, b: Books)
    requires SessionInv(s, b) && (s.cancelled || s.shuttingDown)
    ensures SessionInv(s, b.(wasCancelled := true))
  {
    hide Watch;
  }

  lemma BooksAgree(s: Shared, b: Books)
    requires SessionInv(s, b)
    ensures MonitorOf(s).signal.gated == b.hasFault
    ensures b.isWatched ==> !s.dog.worker.Absent?
  {
    hide Watch;
  }

  /** An event of the run thread that the monitor allows keeps the invariant. */
  lemma SessionEvent(s: Shared, e: Event, b: Books)
    requires SessionInv(s, b) && IsRunEvent(e)
    requires var n := Step(MonitorOf(s), e);
             && n.bad == MonitorOf(s).bad
             && (e.Queued? ==> n.signal.queued <= b.samples && n.lateFrames <= b.blockFrames)
    ensures var (n, t) := (Step(MonitorOf(s), e), Emit(s, e));
            && SessionInv(t, b.(audioIsOpen := n.setup.audioOpen, submitted := if e.Queued? then |n.signal.queued| else b.submitted))
            && MonitorOf(t) == n
  {
    hide Watch;
    RunEvent(s, e);
  }

  /** Nothing but setup has happened yet. */
  predicate OnlySetup(m: Monitor) {
    && m.keys == 0 && m.teardown == Teardown(false, 0, 0, 0)
    && m.signal == Signal([], m.signal.gated, false, false, false)
    && m.lateFrames == 0 && m.tail == NO_TAIL
  }

  lemma SetupQuiet(s: Shared, t: Shared)
    requires Quiet(s, t) && OnlySetup(MonitorOf(s)) && MonitorOf(s).setup.confirmed
    ensures OnlySetup(MonitorOf(t)) && MonitorOf(t).setup == MonitorOf(s).setup
  {
    hide Watch;
  }

  lemma StepAudioOpen(m: Monitor, e: Event)
    requires IsRunEvent(e)
    ensures Step(m, e).setup.audioOpen == if e.Opened? then e.ok else m.setup.audioOpen
  {
  }

  lemma WatchdogBooks(s: Shared, policy: PttCleanupPolicy, b: Books)
    requires SessionInv(s, b) && !b.isWatched
    ensures Inv(s) && !s.dog.hasExpired && s.dog.expiry <= s.now && s.dog.worker.Absent?
    ensures SessionInv(s.(dog := Dog(AtHead, false, false, 0, s.dog.expiry, false, policy)), b.(isWatched := true))
  {
    hide Watch;
  }

  lemma EnvBooks(s: Shared, t: Shared, b: Books)
    requires SessionInv(s, b) && b.isWatched && Inv(t) && EnvMonitor(MonitorOf(s), MonitorOf(t))
    requires !t.dog.stopRequested && !t.dog.worker.Absent? && !s.dog.hasExpired
    requires (s.cancelled ==> t.cancelled) && (s.shuttingDown ==> t.shuttingDown)
    ensures SessionInv(t, b)
  {
    hide Watch;
  }

  lemma MarkedBooks(s: Shared, t: Shared, b: Books)
    requires SessionInv(s, b) && b.isWatched && Inv(t) && EnvMonitor(MonitorOf(s), MonitorOf(t)) && DogRely(s.dog, t.dog)
    requires (s.cancelled ==> t.cancelled) && (s.shuttingDown ==> t.shuttingDown)
    ensures SessionInv(t, b) && (Guarded(s) ==> Guarded(t))
  {
    hide Watch;
  }

  lemma KeyBooks(s: Shared, attempt: nat, deadline: int, reply: PttOperationResult, b: Books)
    requires SessionInv(s, b) && MayKey(MonitorOf(s)) && b.isWatched
    ensures var (t, r) := TransmitWorld.Execute(s, RunThread, Key, attempt, deadline, reply);
            && SessionInv(t, b) && t.dog == s.dog
            && MonitorOf(t) == OnKey(MonitorOf(s), IsKeyed(r), r.certainty.DefinitelyUnkeyed?)
            && MonitorOf(t).bad == MonitorOf(s).bad
  {
    hide Watch;
    KeyEvent(s, attempt, deadline, reply);
  }

  lemma ReleasedBooks(s: Shared, t: Shared, b: Books)
    requires SessionInv(s, b) && Released(s, t)
    ensures SessionInv(t, b) && (Guarded(s) ==> Guarded(t)) && Accounted(t)
    ensures var (m, n) := (MonitorOf(s), MonitorOf(t));
            && n.keys == m.keys && n.keyOk == m.keyOk && n.setup == m.setup.(confirmed := n.setup.confirmed)
            && n.teardown == m.teardown.(released := m.teardown.released || m.keys > 0)
            && (m.setup.confirmed ==> n.setup.confirmed)
            && QuietSignal(m.signal, n.signal) && n.lateFrames == m.lateFrames
            && n.signal.gated == m.signal.gated && n.tail == m.tail
            && (Troubled(s) ==> Troubled(t)) && m.trouble.causes <= n.trouble.causes
            && (t.safety.hasHazard ==> CleanupFailure in n.trouble.causes)
  {
    hide Watch;
  }

  /** A key request has been made, after complete setup. */
  predicate Requested(m: Monitor) {
    && m.keys == 1
    && m.setup == Setup(true, 1, true, true, true, true, true)
    && m.teardown == Teardown(m.teardown.released, 0, 0, 0)
  }

  lemma RequestedQuiet(s: Shared, t: Shared)
    requires Quiet(s, t) && Requested(MonitorOf(s))
    ensures Requested(MonitorOf(t)) && MonitorOf(t).keyOk == MonitorOf(s).keyOk
    ensures MonitorOf(t).teardown == MonitorOf(s).teardown
    ensures QuietSignal(MonitorOf(s).signal, MonitorOf(t).signal)
    ensures MonitorOf(t).lateFrames == MonitorOf(s).lateFrames
    ensures !MonitorOf(s).tail.begun || MonitorOf(s).tail.ended ==> MonitorOf(t).tail == MonitorOf(s).tail
    ensures Accounted(s) ==> Accounted(t)
    ensures Guarded(s) ==> Guarded(t)
  {
    hide Watch;
  }

  lemma QuietGuarded(s: Shared, t: Shared)
    requires Quiet(s, t)
    ensures Guarded(s) ==> Guarded(t)
    ensures s.dog.hasExpired ==> t.dog.hasExpired
  {
    hide Watch;
  }

  lemma MayKeyNow(s: Shared, b: Books)
    requires SessionInv(s, b) && !b.hasFault && OnlySetup(MonitorOf(s))
    requires MonitorOf(s).setup == Setup(true, 1, true, true, true, true, true)
    ensures MayKey(MonitorOf(s))
  {
    hide Watch;
  }

  lemma NothingLate(s: Shared, b: Books)
    requires SessionInv(s, b)
    ensures !s.dog.hasExpired ==> MonitorOf(s).lateFrames == 0
    ensures MonitorOf(s).signal.queued <= b.samples && b.submitted == |MonitorOf(s).signal.queued|
    ensures MonitorOf(s).signal.gated == b.hasFault
  {
    hide Watch;
  }

  /** The tail was held for its whole duration if and only if no heartbeat failed before. */
  predicate TailHeld(m: Monitor, duration: int) {
    && m.tail.begun && m.tail.ended && m.tail.duration == duration
    && (m.tail.begunAt + duration <= m.tail.endedAt <==> !m.tail.cut)
  }

  /** A session without any fault, as its log shows it. */
  predicate Flawless(m: Monitor, samples: seq<Sample>, tail: int) {
    && Requested(m) && m.keyOk && m.danger.unkeyedAfterKey && m.teardown.released
    && m.signal == Signal(samples, false, true, true, true)
    && TailHeld(m, tail)
  }

  /** What still holds once the lease is given up, whether or not PTT could be confirmed. */
  predicate EndInv(s: Shared, b: Books, stopped: nat) {
    var m := MonitorOf(s);
    && Inv(s) && Accounted(s) && !m.bad
    && m.setup.audioOpen == b.audioIsOpen
    && m.signal.queued <= b.samples && |m.signal.queued| == b.submitted
    && m.lateFrames <= b.blockFrames
    && (m.keys > 0 <==> m.teardown.released)
    && m.teardown == Teardown(m.teardown.released, stopped, stopped, stopped)
    && (!b.hasFault ==> Flawless(m.(teardown := Teardown(true, 0, 0, 0)), b.samples, b.tail))
    && (b.hasFault ==> Grounds(s, b.error)) && (!b.hasFault ==> b.error.NoTransmitError?)
    && (b.wasCancelled ==> s.cancelled || s.shuttingDown)
    && (s.safety.hasHazard ==> Troubled(s))
  }

  lemma EndRely(s: Shared, t: Shared, b: Books, stopped: nat)
    requires EndInv(s, b, stopped) && Inv(t)
    requires (s.cancelled ==> t.cancelled) && (s.shuttingDown ==> t.shuttingDown)
    requires (s.dog.hasExpired ==> t.dog.hasExpired) && (!t.dog.hasExpired ==> t.safety == s.safety)
    requires EnvMonitor(MonitorOf(s), MonitorOf(t)) && (Accounted(s) ==> Accounted(t))
    ensures EndInv(t, b, stopped)
  {
    hide Watch;
  }

  lemma EndFault(s: Shared, b: Books, stopped: nat)
    requires EndInv(s, b, stopped) && CleanupFailure in MonitorOf(s).trouble.causes
    ensures EndInv(s, b.(hasFault := true, error := CleanupFailure), stopped)
  {
    hide Watch;
  }

  lemma EndCancelled(s: Shared, b: Books, stopped: nat)
    requires EndInv(s, b, stopped) && (s.cancelled || s.shuttingDown)
    ensures EndInv(s, b.(wasCancelled := true), stopped)
  {
    hide Watch;
  }

  lemma EndReleased(s: Shared, t: Shared, b: Books)
    requires SessionInv(s, b) && Released(s, t) && Requested(MonitorOf(s)) && !MonitorOf(s).teardown.released
    requires !b.hasFault ==>
               && MonitorOf(s).keyOk && MonitorOf(s).signal == Signal(b.samples, false, true, true, true)
               && TailHeld(MonitorOf(s), b.tail)
    requires !MonitorOf(t).danger.unkeyedAfterKey ==> t.safety.hasHazard
    ensures b.hasFault || !t.safety.hasHazard ==> EndInv(t, b, 0)
    ensures !b.hasFault && t.safety.hasHazard ==> EndInv(t, b.(hasFault := true, error := CleanupFailure), 0)
  {
    hide Watch;
  }

  lemma EndWithoutKey(s: Shared, b: Books)
    requires SessionInv(s, b) && b.hasFault && Accounted(s)
    requires var m := MonitorOf(s); m.teardown == Teardown(m.keys > 0, 0, 0, 0)
    ensures EndInv(s, b, 0)
  {
    hide Watch;
  }

  /** Audio teardown has gone from all-zero counts to these counts; nothing else moved. */
  predicate Stopping(s: Shared, t: Shared, requests: nat, stops: nat, closes: nat) {
    var (m, n) := (MonitorOf(s), MonitorOf(t));
    && Inv(t) && (Accounted(s) ==> Accounted(t))
    && EnvMonitor(m.(teardown := Teardown(m.teardown.released, requests, stops, closes), trouble := n.trouble), n)
    && (s.cancelled ==> t.cancelled) && (s.shuttingDown ==> t.shuttingDown)
    && m.trouble.causes <= n.trouble.causes
    && (Troubled(s) ==> Troubled(t)) && (!t.dog.hasExpired ==> t.safety == s.safety)
    && (s.dog.hasExpired ==> t.dog.hasExpired)
  }

  lemma StoppingRely(s: Shared, t: Shared, u: Shared, requests: nat, stops: nat, closes: nat)
    requires Stopping(s, t, requests, stops, closes) && Rely(t, u)
    ensures Stopping(s, u, requests, stops, closes)
    ensures MonitorOf(u).trouble == MonitorOf(t).trouble
  {
    hide Watch;
  }

  lemma StoppingStep(s: Shared, t: Shared, e: Event, requests: nat, stops: nat, closes: nat)
    requires Stopping(s, t, requests, stops, closes)
    requires MonitorOf(s).setup.audioOpen && (MonitorOf(s).keys > 0 ==> MonitorOf(s).teardown.released)
    requires (requests, stops, closes) == (0, 0, 0) ==> e.StopRequested?
    requires (requests, stops, closes) == (1, 0, 0) ==> e.Stopped?
    requires (requests, stops, closes) == (1, 1, 0) ==> e.Closed?
    requires requests <= 1 && stops <= requests && closes <= stops && closes == 0
    ensures Stopping(s, Emit(t, e), 1, requests, stops)
    ensures MonitorOf(t).trouble.causes <= MonitorOf(Emit(t, e)).trouble.causes
    ensures e in [StopRequested(false), Stopped(false), Closed(false)] ==> CleanupFailure in MonitorOf(Emit(t, e)).trouble.causes
  {
    hide Watch, Step;
    RunEvent(t, e);
    if e.StopRequested? || e.Stopped? || e.Closed? {
      TeardownStep(MonitorOf(t), e.ok);
    }
  }

  lemma EndStopped(s: Shared, t: Shared, b: Books)
    requires EndInv(s, b, 0) && Stopping(s, t, 1, 1, 1)
    ensures EndInv(t, b, 1)
  {
    hide Watch;
  }

  class RunContext {
    const world: World
    const request: TransmitRequest
    const source: FiniteSampleSource
    const supervisor: PttSupervisor
    var watchdog: PttWatchdog?
    var lease: PttLease?
    var state: TransmitState
    var trace: seq<TransmitState>
    var error: TransmitError
    var secondaryErrors: nat
    var submittedFrames: nat
    var hasFault: bool
    var wasCancelled: bool
    var keyWasAttempted: bool
    var nonSilentAudioWasReleased: bool
    var audioIsOpen: bool
    var audioFailed: bool

    constructor (world: World, request: TransmitRequest, source: FiniteSampleSource)
      ensures this.world == world && this.request == request && this.source == source
      ensures supervisor.world == world && fresh(supervisor)
      ensures watchdog == null && lease == null && trace == [] && secondaryErrors == 0 && submittedFrames == 0
      ensures !hasFault && !wasCancelled && !keyWasAttempted && !nonSilentAudioWasReleased && !audioIsOpen && !audioFailed
      ensures error == NoTransmitError
    {
      this.world, this.request, this.source := world, request, source;
      supervisor := new PttSupervisor(world);
      watchdog, lease, state, trace, error := null, null, Preparing, [], NoTransmitError;
      secondaryErrors, submittedFrames := 0, 0;
      hasFault, wasCancelled, keyWasAttempted, nonSilentAudioWasReleased := false, false, false, false;
      audioIsOpen, audioFailed := false, false;
    }

    function Account(): Books
      reads this
    {
      Books(source.samples, request.blockFrames, request.policy.postAudioTail * MILLISECOND, watchdog != null, hasFault, error,
            wasCancelled, audioIsOpen, submittedFrames)
    }

    /** What holds between any two statements of the phases. */
    predicate Valid()
      reads this, world, source
    {
      && SessionInv(world.s, Account())
      && supervisor.world == world
      && ValidPolicy(request.policy)
      && (watchdog != null ==> watchdog.world == world)
      && (lease != null ==> lease.world == world)
      && source.position <= |source.samples|
      && source.isCancelled == hasFault
      && |trace| <= MAXIMUM_TRACE_ENTRIES
    }

    method SetState(next: TransmitState)
      requires |trace| <= MAXIMUM_TRACE_ENTRIES
      modifies this`state, this`trace
      ensures state == next && |trace| <= MAXIMUM_TRACE_ENTRIES
      ensures old(trace) <= trace
    {
      state := next;
      if |trace| < MAXIMUM_TRACE_ENTRIES {
        trace := trace + [next];
      }
    }

    /** Closes the signal gate and cancels the source. */
    method FailFirst(code: TransmitError)
      requires Valid() && !hasFault && Grounds(world.s, code)
      modifies this`hasFault, this`error, this`state, this`trace, world, source`isCancelled
      ensures Valid() && hasFault && error == code
      ensures Quiet(old(world.s), world.s)
      ensures Explained(old(world.s), code) ==> Explained(world.s, code)
      ensures MonitorOf(world.s).tail == MonitorOf(old(world.s)).tail
      ensures MonitorOf(world.s).trouble == MonitorOf(old(world.s)).trouble
      ensures world.s.dog.expiry == old(world.s.dog.expiry) && old(world.s.now) <= world.s.now
    {
      hide Watch, Rely, Inv, Accounted, Quiet, ValidPolicy;
      ghost var books := Account();
      assert Inv(world.s) && SessionInv(world.s, books);
      hide SessionInv;
      var t := world.Yield();
      SessionRely(old(world.s), world.s, books);
      ghost var a := world.s;
      GatedQuiet(world.s);
      world.s := Emit(world.s, Gated);
      QuietTransitive(old(world.s), a, world.s);
      SessionFaulted(old(world.s), world.s, books, code);
      hasFault, error := true, code;
      source.isCancelled := true;
      SetState(Faulting);
    }

    /** The first fault closes the signal gate and cancels the source; later ones are noted. */
    method Fail(code: TransmitError)
      requires Valid() && Grounds(world.s, code)
      modifies this`hasFault, this`error, this`secondaryErrors, this`state, this`trace, world, source`isCancelled
      ensures Valid() && hasFault
      ensures Quiet(old(world.s), world.s)
      ensures Explained(old(world.s), code) ==> Explained(world.s, code)
      ensures MonitorOf(world.s).tail == MonitorOf(old(world.s)).tail
      ensures MonitorOf(world.s).trouble == MonitorOf(old(world.s)).trouble
      ensures error == if old(hasFault) then old(error) else code
      ensures secondaryErrors == old(secondaryErrors) + if old(hasFault) then 1 else 0
      ensures world.s.dog.expiry == old(world.s.dog.expiry) && old(world.s.now) <= world.s.now
    {
      hide Watch, Rely, Accounted, Quiet, ValidPolicy;
      if hasFault {
        secondaryErrors := secondaryErrors + 1;
        QuietReflexive(world.s);
      } else {
        FailFirst(code);
      }
    }

    /** A scheduling point inside a session. */
    method Next() returns (t: Turn)
      requires Valid()
      modifies world
      ensures Valid()
      ensures Quiet(old(world.s), world.s) && (Guarded(old(world.s)) ==> Guarded(world.s))
      ensures MonitorOf(world.s) == MonitorOf(old(world.s)).(danger := MonitorOf(world.s).danger)
      ensures world.s.dog.expiry == old(world.s.dog.expiry) && old(world.s.now) <= world.s.now
      ensures old(world.s.dog.hasExpired) ==> world.s.dog.hasExpired
      ensures (old(world.s.cancelled) ==> world.s.cancelled) && (old(world.s.shuttingDown) ==> world.s.shuttingDown)
    {
      hide Watch, Rely, Accounted, Quiet, ValidPolicy;
      ghost var books := Account();
      assert Inv(world.s) && SessionInv(world.s, books);
      hide SessionInv, Inv;
      t := world.Yield();
      SessionRely(old(world.s), world.s, books);
    }

    method CancelRequested() returns (requested: bool)
      requires Valid()
      modifies world
      ensures Valid()
      ensures Quiet(old(world.s), world.s)
      ensures MonitorOf(world.s) == MonitorOf(old(world.s)).(danger := MonitorOf(world.s).danger)
      ensures world.s.dog.expiry == old(world.s.dog.expiry) && old(world.s.now) <= world.s.now
      ensures old(world.s.dog.hasExpired) ==> world.s.dog.hasExpired
      ensures old(world.s.cancelled || world.s.shuttingDown) ==> requested
      ensures requested ==> world.s.cancelled || world.s.shuttingDown
    {
      hide Watch, Accounted, Quiet, ValidPolicy, SessionInv, Inv, DogRely;
      var t := Next();
      requested := world.s.cancelled;
      if !requested {
        ghost var a := world.s;
        t := Next();
        QuietTransitive(old(world.s), a, world.s);
        requested := world.s.shuttingDown;
      }
    }

    method ReadStatus() returns (status: AudioStatus)
      requires Valid()
      modifies world
      ensures Valid()
      ensures Quiet(old(world.s), world.s)
      ensures MonitorOf(world.s) == OnStatus(MonitorOf(old(world.s)), status).(danger := MonitorOf(world.s).danger)
      ensures world.s.dog.expiry == old(world.s.dog.expiry) && old(world.s.now) <= world.s.now
      ensures old(world.s.dog.hasExpired) ==> world.s.dog.hasExpired
    {
      hide Watch, Rely, Accounted, Quiet, ValidPolicy, SessionInv, Inv;
      var t := Next();
      ghost var a := world.s;
      status := t.endpoint.status;
      SessionStatus(a, status, Account());
      world.s := Emit(world.s, StatusRead(status));
      QuietTransitive(old(world.s), a, world.s);
    }

    /** checkControl: cancellation, then the watchdog, then the audio endpoint. */
    method CheckControl() returns (ok: bool)
      requires Valid()
      modifies this`hasFault, this`wasCancelled, this`error, this`secondaryErrors, this`state, this`trace
      modifies world, source`isCancelled
      ensures Valid()
      ensures Quiet(old(world.s), world.s)
      ensures ok ==> hasFault == old(hasFault)
      // the first fault says what happened: a cancellation, an expiry, or a fault of the endpoint
      ensures !ok ==> hasFault && Troubled(world.s) && (!old(hasFault) ==> Explained(world.s, error))
      ensures ok && watchdog != null ==> !old(world.s.dog.hasExpired)
      ensures ok && MonitorOf(world.s).signal.finished ==> MonitorOf(world.s).signal.cleanAfterFinish
      ensures MonitorOf(world.s).tail == MonitorOf(old(world.s)).tail
      ensures ok ==> MonitorOf(world.s).trouble == MonitorOf(old(world.s)).trouble
      ensures world.s.dog.expiry == old(world.s.dog.expiry) && old(world.s.now) <= world.s.now
    {
      hide Watch, Rely, Accounted, Quiet, ValidPolicy, SessionInv, Inv;
      var requested := CancelRequested();
      ghost var a := world.s;
      if requested {
        CancelledBooks(world.s, Account());
        wasCancelled := true;
        Fail(CancelledByUser);
        QuietTransitive(old(world.s), a, world.s);
        return false;
      }
      if watchdog != null {
        var t := Next();
        QuietTransitive(old(world.s), a, world.s);
        if world.s.dog.hasExpired {
          a := world.s;
          Fail(WatchdogFailure);
          QuietTransitive(old(world.s), a, world.s);
          return false;
        }
      }
      a := world.s;
      ok := CheckAudio();
      QuietTransitive(old(world.s), a, world.s);
    }

    method CheckAudio() returns (ok: bool)
      requires Valid()
      modifies this`hasFault, this`error, this`secondaryErrors, this`state, this`trace, world, source`isCancelled
      ensures Valid()
      ensures Quiet(old(world.s), world.s)
      ensures ok ==> hasFault == old(hasFault)
      ensures !ok ==> hasFault && Troubled(world.s) && (!old(hasFault) ==> Explained(world.s, error))
      ensures ok && MonitorOf(world.s).signal.finished ==> MonitorOf(world.s).signal.cleanAfterFinish
      ensures MonitorOf(world.s).tail == MonitorOf(old(world.s)).tail
      ensures ok ==> MonitorOf(world.s).trouble == MonitorOf(old(world.s)).trouble
      ensures world.s.dog.expiry == old(world.s.dog.expiry) && old(world.s.now) <= world.s.now
    {
      hide Watch, Rely, Accounted, Quiet, ValidPolicy, SessionInv, Inv;
      var status := ReadStatus();
      ok := status.fault.NoFault?;
      if !ok {
        ghost var a := world.s;
        Fail(AudioFaultCode(status.fault));
        QuietTransitive(old(world.s), a, world.s);
      }
    }

    /** scheduler_->waitUntil inside a session. */
    method Sleep()
      requires Valid()
      modifies world
      ensures Valid()
      ensures Quiet(old(world.s), world.s)
      ensures MonitorOf(world.s) == MonitorOf(old(world.s)).(danger := MonitorOf(world.s).danger)
      ensures world.s.dog.expiry == old(world.s.dog.expiry) && old(world.s.now) < world.s.now
      ensures Prompt(world.s, world.grace)
    {
      hide Watch, Rely, Accounted, Quiet, ValidPolicy;
      ghost var books := Account();
      assert Inv(world.s) && SessionInv(world.s, books);
      hide SessionInv, Inv;
      world.Wait();
      SessionRely(old(world.s), world.s, books);
    }

    method Heartbeat() returns (ok: bool)
      requires Valid() && watchdog != null
      modifies world
      ensures Valid()
      ensures Quiet(old(world.s), world.s)
      ensures MonitorOf(world.s) == OnBeat(MonitorOf(old(world.s)), ok, world.s.now).(danger := MonitorOf(world.s).danger)
      ensures ok ==> !old(world.s.dog.hasExpired)
      ensures !ok ==> !world.s.dog.isArmed || world.s.dog.hasExpired || world.s.dog.expiry <= world.s.now
      ensures old(world.s.now) <= world.s.now
    {
      hide Watch, Rely, Accounted, ValidPolicy;
      ghost var books := Account();
      assert Inv(world.s) && SessionInv(world.s, books);
      BooksAgree(world.s, books);
      hide SessionInv, Inv;
      ok := watchdog.Heartbeat();
      SessionQuiet(old(world.s), world.s, books);
    }

    /** waitPhase: a failed heartbeat ends the wait without raising a fault. */
    method WaitPhase(duration: int) returns (ok: bool)
      requires Valid()
      modifies this`hasFault, this`wasCancelled, this`error, this`secondaryErrors, this`state, this`trace
      modifies world, source`isCancelled
      ensures Valid()
      ensures Quiet(old(world.s), world.s)
      ensures old(hasFault) ==> hasFault
      ensures ok ==> hasFault == old(hasFault)
      ensures ok ==> old(world.s.now) + duration <= world.s.now
      ensures ok && MonitorOf(world.s).signal.finished ==> MonitorOf(world.s).signal.cleanAfterFinish
      ensures ok ==> MonitorOf(world.s).tail == MonitorOf(old(world.s)).tail
      ensures ok ==> MonitorOf(world.s).trouble == MonitorOf(old(world.s)).trouble
      // a wait that fails without a fault was ended by a heartbeat that failed just now
      ensures !ok && !hasFault ==> {WatchdogFailure, CancelledByUser} <= MonitorOf(world.s).trouble.causes
      ensures !ok && !hasFault ==>
                MonitorOf(world.s).tail == OnBeat(MonitorOf(old(world.s)), false, world.s.now).tail
      ensures hasFault && !old(hasFault) ==> Explained(world.s, error)
      ensures old(world.s.now) <= world.s.now
    {
      hide Watch, Rely, Accounted, Quiet, ValidPolicy, SessionInv, Inv;
      var t := Next();
      var finish := world.s.now + duration;
      while world.s.now < finish
        invariant Valid() && Quiet(old(world.s), world.s) && old(world.s.now) + duration <= finish
        invariant hasFault == old(hasFault) && old(world.s.now) <= world.s.now
        invariant MonitorOf(world.s).tail == MonitorOf(old(world.s)).tail
        invariant MonitorOf(world.s).trouble == MonitorOf(old(world.s)).trouble
        decreases finish - world.s.now
      {
        ghost var a := world.s;
        var controlled := CheckControl();
        QuietTransitive(old(world.s), a, world.s);
        if !controlled {
          return false;
        }
        if watchdog != null {
          a := world.s;
          var alive := Heartbeat();
          QuietTransitive(old(world.s), a, world.s);
          if !alive {
            return false;
          }
        }
        a := world.s;
        Sleep();
        QuietTransitive(old(world.s), a, world.s);
      }
      ghost var b := world.s;
      ok := CheckControl();
      QuietTransitive(old(world.s), b, world.s);
    }

    /** Performs one endpoint or watchdog action and keeps the books. */
    method Act(e: Event)
      requires Valid() && IsRunEvent(e) && !e.Queued?
      requires Step(MonitorOf(world.s), e).bad == MonitorOf(world.s).bad
      modifies this`audioIsOpen, world
      ensures Valid()
      ensures world.s == Emit(old(world.s), e)
      ensures MonitorOf(world.s) == Step(MonitorOf(old(world.s)), e)
      ensures audioIsOpen == if e.Opened? then e.ok else old(audioIsOpen)
    {
      hide Watch, Rely, Accounted, Quiet, ValidPolicy, Inv, Step;
      SessionEvent(world.s, e, Account());
      StepAudioOpen(MonitorOf(world.s), e);
      assert audioIsOpen == MonitorOf(world.s).setup.audioOpen;
      hide SessionInv;
      world.s := Emit(world.s, e);
      if e.Opened? {
        audioIsOpen := e.ok;
      }
    }

    method FailSetup(code: TransmitError)
      requires Valid() && OnlySetup(MonitorOf(world.s)) && MonitorOf(world.s).setup.confirmed && Grounds(world.s, code)
      modifies this`hasFault, this`error, this`secondaryErrors, this`state, this`trace, world, source`isCancelled
      ensures Valid() && hasFault
      ensures OnlySetup(MonitorOf(world.s)) && MonitorOf(world.s).setup == MonitorOf(old(world.s)).setup
      ensures Quiet(old(world.s), world.s)
    {
      hide Watch, Rely, Accounted, Quiet, ValidPolicy, Inv, SessionInv;
      Fail(code);
      SetupQuiet(old(world.s), world.s);
    }

    method CheckSetup()
      requires Valid() && OnlySetup(MonitorOf(world.s)) && MonitorOf(world.s).setup.confirmed
      modifies this`hasFault, this`wasCancelled, this`error, this`secondaryErrors, this`state, this`trace
      modifies world, source`isCancelled
      ensures Valid()
      ensures OnlySetup(MonitorOf(world.s)) && MonitorOf(world.s).setup == MonitorOf(old(world.s)).setup
      ensures old(hasFault) ==> hasFault
      ensures Quiet(old(world.s), world.s)
    {
      hide Watch, Rely, Accounted, Quiet, ValidPolicy, Inv, SessionInv;
      var ok := CheckControl();
      SetupQuiet(old(world.s), world.s);
    }

    method OpenAudio()
      requires Valid() && !hasFault && OnlySetup(MonitorOf(world.s))
      requires MonitorOf(world.s).setup == Setup(true, 0, false, false, false, false, false)
      modifies this`hasFault, this`wasCancelled, this`error, this`secondaryErrors, this`state, this`trace
      modifies this`audioIsOpen, world, source`isCancelled
      ensures Valid()
      ensures OnlySetup(MonitorOf(world.s))
              && MonitorOf(world.s).setup == Setup(true, 1, audioIsOpen, false, false, false, false)
      ensures !hasFault ==> audioIsOpen
    {
      hide Watch, Rely, Accounted, Quiet, ValidPolicy, Inv, SessionInv;
      SetState(OpeningAudio);
      var t := Next();
      Act(Opened(t.endpoint.ok));
      if !t.endpoint.ok {
        FailSetup(AudioFailure);
      } else {
        CheckSetup();
      }
    }

    method PrimeAudio()
      requires Valid() && !hasFault && audioIsOpen && OnlySetup(MonitorOf(world.s))
      requires MonitorOf(world.s).setup == Setup(true, 1, true, false, false, false, false)
      modifies this`hasFault, this`wasCancelled, this`error, this`secondaryErrors, this`state, this`trace
      modifies this`audioIsOpen, world, source`isCancelled
      ensures Valid() && audioIsOpen
      ensures OnlySetup(MonitorOf(world.s))
      ensures var p := MonitorOf(world.s).setup; p == Setup(true, 1, true, p.prefilled, p.primed, p.started, false)
      ensures !hasFault ==> MonitorOf(world.s).setup == Setup(true, 1, true, true, true, true, false)
    {
      hide Watch, Rely, Accounted, Quiet, ValidPolicy, Inv, SessionInv;
      SetState(PrimingAudio);
      var t := Next();
      Act(Prefilled(request.prefillFrames, t.endpoint.ok));
      if t.endpoint.ok {
        PrimeAndStart();
      } else {
        FailSetup(AudioFailure);
      }
    }

    method PrimeAndStart()
      requires Valid() && !hasFault && audioIsOpen && OnlySetup(MonitorOf(world.s))
      requires MonitorOf(world.s).setup == Setup(true, 1, true, true, false, false, false)
      modifies this`hasFault, this`wasCancelled, this`error, this`secondaryErrors, this`state, this`trace
      modifies this`audioIsOpen, world, source`isCancelled
      ensures Valid() && audioIsOpen
      ensures OnlySetup(MonitorOf(world.s))
      ensures var p := MonitorOf(world.s).setup; p == Setup(true, 1, true, true, p.primed, p.started, false)
      ensures !hasFault ==> MonitorOf(world.s).setup.primed && MonitorOf(world.s).setup.started
    {
      hide Watch, Step, Rely, Accounted, Quiet, ValidPolicy, Inv, SessionInv;
      var t := Next();
      PrimedStep(MonitorOf(world.s), t.endpoint.ok);
      Act(Primed(t.endpoint.ok));
      if t.endpoint.ok {
        t := Next();
        PrimedStep(MonitorOf(world.s), t.endpoint.ok);
        Act(Started(t.endpoint.ok));
        if t.endpoint.ok {
          CheckSetup();
          return;
        }
      }
      FailSetup(AudioFailure);
    }

    /** Creates the watchdog, unless its construction fails, and the lease. */
    method CreateWatchdog(constructed: bool)
      requires Valid() && !hasFault && watchdog == null && OnlySetup(MonitorOf(world.s))
               && MonitorOf(world.s).setup.confirmed
      modifies this`hasFault, this`error, this`secondaryErrors, this`state, this`trace, this`watchdog, this`lease
      modifies this`audioIsOpen, world, source`isCancelled
      ensures Valid() && hasFault == !constructed && audioIsOpen == old(audioIsOpen)
      ensures lease != null && fresh(lease) && !lease.isActive && !lease.hasReleased
      ensures lease.policy == CleanupPolicy(request.policy)
      ensures constructed ==> watchdog != null && world.s.dog.worker.AtHead? && world.s.dog.expiry <= world.s.now
      ensures constructed ==> !world.s.dog.isArmed && !world.s.dog.hasExpired
      ensures OnlySetup(MonitorOf(world.s)) && MonitorOf(world.s).setup == MonitorOf(old(world.s)).setup
      ensures !constructed ==> watchdog == null
    {
      hide Watch, Rely, Accounted, Quiet, Inv;
      var policy := CleanupPolicy(request.policy);
      hide ValidPolicy;
      if constructed {
        ghost var books := Account();
        WatchdogBooks(world.s, policy, books);
        watchdog := new PttWatchdog(world, policy);
        hide SessionInv;
      } else {
        hide SessionInv;
        Act(WatchdogMissing);
        FailSetup(WatchdogFailure);
      }
      lease := new PttLease(world, policy);
    }

    method ArmWatchdog()
      requires Valid() && !hasFault && watchdog == null && audioIsOpen && OnlySetup(MonitorOf(world.s))
      requires MonitorOf(world.s).setup == Setup(true, 1, true, true, true, true, false)
      modifies this`hasFault, this`wasCancelled, this`error, this`secondaryErrors, this`state, this`trace
      modifies this`audioIsOpen, this`watchdog, this`lease, world, source`isCancelled
      ensures Valid() && audioIsOpen
      ensures OnlySetup(MonitorOf(world.s))
      ensures var p := MonitorOf(world.s).setup; p == Setup(true, 1, true, true, true, true, p.armed)
      ensures !hasFault ==> MonitorOf(world.s).setup.armed && watchdog != null
      ensures !hasFault ==> Guarded(world.s)
      ensures lease != null && fresh(lease) && !lease.isActive && !lease.hasReleased
    {
      hide Watch, Rely, Accounted, Quiet, ValidPolicy, Inv, SessionInv;
      SetState(ArmingWatchdog);
      var t := Next();
      CreateWatchdog(t.endpoint.ok);
      if hasFault {
        CheckSetup();
        return;
      }
      FinishArming();
    }

    method FinishArming()
      requires Valid() && !hasFault && audioIsOpen && OnlySetup(MonitorOf(world.s))
      requires watchdog != null && world.s.dog.worker.AtHead? && world.s.dog.expiry <= world.s.now
      requires !world.s.dog.isArmed && !world.s.dog.hasExpired
      requires MonitorOf(world.s).setup == Setup(true, 1, true, true, true, true, false)
      modifies this`hasFault, this`wasCancelled, this`error, this`secondaryErrors, this`state, this`trace
      modifies this`audioIsOpen, world, source`isCancelled
      ensures Valid() && audioIsOpen
      ensures OnlySetup(MonitorOf(world.s))
      ensures var p := MonitorOf(world.s).setup; p == Setup(true, 1, true, true, true, true, p.armed)
      ensures !hasFault ==> MonitorOf(world.s).setup.armed && Guarded(world.s)
    {
      hide Watch, Rely, Accounted, Quiet, ValidPolicy, Inv, SessionInv;
      var armed := Arm();
      Act(Armed(armed));
      ghost var a := world.s;
      if !armed {
        FailSetup(WatchdogFailure);
      } else {
        CheckSetup();
        QuietGuarded(a, world.s);
      }
    }

    method Arm() returns (armed: bool)
      requires Valid() && watchdog != null && world.s.dog.worker.AtHead? && world.s.dog.expiry <= world.s.now
      requires !world.s.dog.isArmed && !world.s.dog.hasExpired
      modifies world
      ensures Valid()
      ensures MonitorOf(world.s) == MonitorOf(old(world.s)).(danger := MonitorOf(world.s).danger)
      ensures armed ==> world.s.dog.isArmed
    {
      hide Watch, Rely, Accounted, Quiet;
      ghost var books := Account();
      armed := watchdog.Arm(request.policy.watchdogLease * MILLISECOND);
      EnvBooks(old(world.s), world.s, books);
    }

    method RequestKey() returns (result: PttOperationResult)
      requires Valid() && OnlySetup(MonitorOf(world.s)) && MayKey(MonitorOf(world.s))
      requires lease != null && watchdog != null && Guarded(world.s)
      modifies this`keyWasAttempted, world, lease
      ensures Valid() && keyWasAttempted && lease.isActive && !lease.hasReleased
      ensures var m := MonitorOf(old(world.s));
              MonitorOf(world.s) ==
              m.(keys := 1, keyOk := IsKeyed(result), trouble := Failing(m.trouble, IsKeyed(result), KeyFailure),
              danger := MonitorOf(world.s).danger)
      ensures result.certainty.DefinitelyUnkeyed? ==> MonitorOf(world.s).danger.unkeyedAfterKey
      ensures Guarded(world.s)
    {
      hide Watch, Accounted, Quiet, Inv;
      keyWasAttempted := true;
      ghost var books := Account();
      lease.MarkKeyAttempt();
      MarkedBooks(old(world.s), world.s, books);
      hide DogRely;
      var t := Next();
      ghost var a := world.s;
      var deadline := world.s.now + request.policy.keyTimeout * MILLISECOND;
      ghost var before, reply;
      result, before, reply := supervisor.Execute(PttAction.Key, deadline, 1);
      SessionRely(a, before, books);
      KeyBooks(before, 1, deadline, reply, books);
    }

    /** From the key request to the release of the lease. */
    predicate AfterKey()
      reads this, world, source, lease
    {
      var m := MonitorOf(world.s);
      && Valid() && Requested(m) && Guarded(world.s)
      && watchdog != null && lease != null && audioIsOpen
      && (lease.isActive ==> !lease.hasReleased && !m.teardown.released)
      && (!lease.isActive ==> hasFault && m.teardown.released && Accounted(world.s))
      && (!hasFault ==> m.keyOk)
    }

    /** Everything up to draining starts without any signal accepted or finished. */
    predicate NoSignalYet()
      reads this, world
    {
      var g := MonitorOf(world.s).signal;
      && g == Signal([], g.gated, false, false, false)
      && MonitorOf(world.s).lateFrames == 0 && MonitorOf(world.s).tail == NO_TAIL
    }

    method RecordKey(key: PttOperationResult)
      requires Valid() && Requested(MonitorOf(world.s)) && Guarded(world.s) && lease != null && watchdog != null
      requires lease.isActive && !lease.hasReleased && audioIsOpen && NoSignalYet()
      requires MonitorOf(world.s).teardown == Teardown(false, 0, 0, 0)
      requires key.certainty.DefinitelyUnkeyed? ==> MonitorOf(world.s).danger.unkeyedAfterKey
      modifies world, lease
      ensures Valid() && Requested(MonitorOf(world.s)) && Guarded(world.s) && NoSignalYet()
      ensures MonitorOf(world.s).keyOk == MonitorOf(old(world.s)).keyOk
      ensures MonitorOf(old(world.s)).trouble.causes <= MonitorOf(world.s).trouble.causes
      ensures lease.isActive ==> !lease.hasReleased && !MonitorOf(world.s).teardown.released
      ensures !lease.isActive ==> MonitorOf(world.s).teardown.released && Accounted(world.s) && key.certainty.DefinitelyUnkeyed?
    {
      hide Watch, Accounted, Quiet, Released;
      ghost var books := Account();
      assert Inv(world.s);
      lease.RecordKeyResult(key);
      if !lease.isActive {
        ReleasedBooks(old(world.s), world.s, books);
      }
    }

    method KeyTransmitter()
      requires Valid() && !hasFault && audioIsOpen && OnlySetup(MonitorOf(world.s)) && Guarded(world.s)
      requires MonitorOf(world.s).setup == Setup(true, 1, true, true, true, true, true)
      requires lease != null && !lease.isActive && !lease.hasReleased && watchdog != null
      modifies this`hasFault, this`error, this`secondaryErrors, this`state, this`trace, this`keyWasAttempted
      modifies world, source`isCancelled, lease
      ensures AfterKey() && NoSignalYet() && keyWasAttempted
    {
      hide Watch, Rely, Accounted, Quiet, Inv, ValidPolicy;
      MayKeyNow(world.s, Account());
      hide SessionInv;
      SetState(Keying);
      var key := RequestKey();
      RecordKey(key);
      ghost var a := world.s;
      if !IsKeyed(key) {
        Fail(KeyFailure);
        RequestedQuiet(a, world.s);
      }
    }

    /** A heartbeat that fails in the delay is reported as a cancellation. */
    method HoldPreKeyDelay()
      requires AfterKey() && NoSignalYet() && !hasFault
      modifies this`hasFault, this`wasCancelled, this`error, this`secondaryErrors, this`state, this`trace
      modifies world, source`isCancelled
      ensures AfterKey() && NoSignalYet()
      ensures hasFault ==>
                || Explained(world.s, error)
                || (error.CancelledByUser? && {WatchdogFailure, CancelledByUser} <= MonitorOf(world.s).trouble.causes)
    {
      hide Watch, Rely, Accounted, Quiet, Inv, ValidPolicy, SessionInv;
      SetState(PreKeyDelay);
      var ok := WaitPhase(request.policy.preKeyDelay * MILLISECOND);
      RequestedQuiet(old(world.s), world.s);
      if !ok && !hasFault {
        ghost var a := world.s;
        Fail(CancelledByUser);
        RequestedQuiet(a, world.s);
      }
    }

    /** After the key request, with the end of the signal still to come. */
    predicate SignalOpen()
      reads this, world, source, lease
    {
      var g := MonitorOf(world.s).signal;
      AfterKey() && !g.finished && !g.drained && !g.cleanAfterFinish && MonitorOf(world.s).tail == NO_TAIL
    }

    /** The accepted signal is what the source gave out so far. */
    predicate SignalInOrder()
      reads this, world, source, lease
    {
      SignalOpen() && (!hasFault ==> MonitorOf(world.s).signal.queued == source.samples[..source.position])
    }

    /** Offers the rest of a block once; zero accepted frames mean a wait. */
    method QueueOnce(rest: seq<Sample>, count: nat) returns (queued: nat)
      requires AfterKey() && !hasFault && rest != []
      requires var m := MonitorOf(world.s);
               && !m.signal.finished && !m.signal.drained && !m.signal.cleanAfterFinish && m.tail == NO_TAIL
               && m.signal.queued + rest == source.samples[..source.position]
               && m.lateFrames + |rest| <= count <= request.blockFrames
      modifies this`hasFault, this`error, this`secondaryErrors, this`state, this`trace
      modifies this`submittedFrames, this`nonSilentAudioWasReleased, world, source`isCancelled
      ensures AfterKey()
      ensures queued <= |rest| <==> !hasFault
      ensures hasFault ==> error == AudioFailure && MonitorOf(world.s).trouble.overReported
      ensures var m := MonitorOf(world.s);
              && !m.signal.finished && !m.signal.drained && !m.signal.cleanAfterFinish && m.tail == NO_TAIL
              && (!hasFault ==>
                    && m.signal.queued == MonitorOf(old(world.s)).signal.queued + rest[..queued]
                    && m.lateFrames <= MonitorOf(old(world.s)).lateFrames + queued)
      ensures world.s.dog.expiry == old(world.s.dog.expiry) && old(world.s.now) <= world.s.now
    {
      hide Watch, Step, OnQueued, Grounds, Rely, Accounted, Quiet, Inv, ValidPolicy;
      var t := Next();
      RequestedQuiet(old(world.s), world.s);
      queued := t.endpoint.queued;
      QueuedStep(MonitorOf(world.s), rest, queued);
      Offered(MonitorOf(world.s), rest, queued);
      NothingLate(world.s, Account());
      ghost var a := world.s;
      SessionEvent(world.s, Queued(rest, queued), Account());
      hide SessionInv;
      world.s := Emit(world.s, Queued(rest, queued));
      if queued > |rest| {
        FailQueue();
      } else {
        submittedFrames := submittedFrames + queued;
        nonSilentAudioWasReleased := nonSilentAudioWasReleased || (queued != 0 && source.facts.containsNonSilence);
      }
    }

    /** What becomes of an offer that is allowed. */
    lemma Offered(m: Monitor, rest: seq<Sample>, accepted: nat)
      requires MayQueue(m)
      ensures var (n, k) := (OnQueued(m, rest, accepted), if accepted <= |rest| then accepted else 0);
              && n.bad == m.bad
              && n.signal == m.signal.(queued := m.signal.queued + rest[..k])
              && n.lateFrames == m.lateFrames + (if m.danger.expired then k else 0)
              && (accepted <= |rest| ==> n.trouble == m.trouble)
              && (accepted > |rest| ==> n.trouble.overReported && AudioFailure in n.trouble.causes)
    {
    }

    method FailQueue()
      requires SignalOpen() && !hasFault && MonitorOf(world.s).trouble.overReported
      requires AudioFailure in MonitorOf(world.s).trouble.causes
      modifies this`hasFault, this`error, this`secondaryErrors, this`state, this`trace, world, source`isCancelled
      ensures SignalOpen() && hasFault && error == AudioFailure && MonitorOf(world.s).trouble.overReported
      ensures world.s.dog.expiry == old(world.s.dog.expiry) && old(world.s.now) <= world.s.now
    {
      hide Watch, Step, Rely, Accounted, Quiet, Inv, ValidPolicy, SessionInv;
      Fail(AudioFailure);
      RequestedQuiet(old(world.s), world.s);
    }

    /** Waits while the endpoint accepts nothing. No heartbeat is sent here, so the wait
        is bounded by the lease. */
    method AwaitSpace() returns (ok: bool)
      requires SignalOpen()
      modifies this`hasFault, this`wasCancelled, this`error, this`secondaryErrors, this`state, this`trace
      modifies world, source`isCancelled
      ensures SignalOpen()
      ensures ok <==> !hasFault
      ensures hasFault && !old(hasFault) ==> Explained(world.s, error)
      ensures MonitorOf(world.s).signal.queued == MonitorOf(old(world.s)).signal.queued
      ensures MonitorOf(world.s).lateFrames == MonitorOf(old(world.s)).lateFrames
      ensures world.s.dog.expiry == old(world.s.dog.expiry) && old(world.s.now) < world.s.now
      ensures ok ==> !old(hasFault) && old(world.s.now) < world.s.dog.expiry + world.grace
    {
      hide Watch, Rely, Accounted, Quiet, Inv, ValidPolicy, SessionInv;
      Sleep();
      RequestedQuiet(old(world.s), world.s);
      ghost var a := world.s;
      BooksAgree(a, Account());
      ok := CheckControl();
      RequestedQuiet(a, world.s);
      ok := ok && !hasFault;
    }

    method QueueBlock(block: seq<Sample>)
      requires SignalOpen() && !hasFault && |block| <= request.blockFrames
      requires MonitorOf(world.s).lateFrames == 0
      requires MonitorOf(world.s).signal.queued + block == source.samples[..source.position]
      modifies this`hasFault, this`wasCancelled, this`error, this`secondaryErrors, this`state, this`trace
      modifies this`submittedFrames, this`nonSilentAudioWasReleased, world, source`isCancelled
      ensures SignalInOrder()
      // the whole block is accepted, or the fault is a cancellation, an expiry or the endpoint's
      ensures !hasFault ==> MonitorOf(world.s).signal.queued == MonitorOf(old(world.s)).signal.queued + block
      ensures hasFault ==>
                || Explained(world.s, error)
                || (error == AudioFailure && MonitorOf(world.s).trouble.overReported)
    {
      hide Watch, Rely, Accounted, Quiet, Inv, ValidPolicy, SessionInv;
      ghost var start := MonitorOf(world.s).signal.queued;
      var offset := 0;
      while offset < |block| && !hasFault
        invariant 0 <= offset <= |block| && SignalOpen()
        invariant !hasFault ==> MonitorOf(world.s).signal.queued == start + block[..offset]
        invariant !hasFault ==> MonitorOf(world.s).lateFrames <= offset
        invariant hasFault ==>
                    || Explained(world.s, error)
                    || (error == AudioFailure && MonitorOf(world.s).trouble.overReported)
        decreases !hasFault, |block| - offset, world.s.dog.expiry + world.grace - world.s.now
      {
        var queued := QueueOnce(block[offset..], |block|);
        if hasFault {
          break;
        }
        if queued == 0 {
          var ok := AwaitSpace();
          if !ok {
            break;
          }
        } else {
          offset := offset + queued;
        }
      }
    }

    /** One round of the transmit loop: check, heartbeat, read, queue. */
    method TransmitBlock()
      requires SignalInOrder() && !hasFault && !source.IsExhausted()
      modifies this`hasFault, this`wasCancelled, this`error, this`secondaryErrors, this`state, this`trace
      modifies this`audioIsOpen, this`submittedFrames, this`nonSilentAudioWasReleased, world, source
      ensures SignalInOrder()
      ensures !hasFault ==> source.position > old(source.position)
    {
      hide Watch, Step, Rely, Accounted, Quiet, Inv, ValidPolicy, SessionInv;
      var alive := CheckAndHeartbeat();
      if !alive {
        return;
      }
      ghost var a := world.s;
      var t := Next();
      RequestedQuiet(a, world.s);
      var read := source.Read(request.blockFrames, t.source);
      if read.SourceError? || |read.block| == 0 {
        FailSource();
        return;
      }
      QueueBlock(read.block);
    }

    method FailSource()
      requires SignalOpen() && !hasFault
      modifies this`hasFault, this`error, this`secondaryErrors, this`state, this`trace, this`audioIsOpen
      modifies world, source`isCancelled
      ensures SignalOpen() && hasFault
    {
      hide Watch, Step, Rely, Accounted, Quiet, Inv, ValidPolicy, SessionInv;
      FailureStep(MonitorOf(world.s), SourceFailed);
      Act(SourceFailed);
      ghost var a := world.s;
      Fail(SourceFailure);
      RequestedQuiet(a, world.s);
    }

    /** A successful heartbeat means no expiry, and so no late frames, up to now. */
    method CheckAndHeartbeat() returns (alive: bool)
      requires SignalInOrder() && !hasFault
      modifies this`hasFault, this`wasCancelled, this`error, this`secondaryErrors, this`state, this`trace
      modifies world, source`isCancelled
      ensures SignalInOrder() && (alive <==> !hasFault)
      ensures alive ==> MonitorOf(world.s).lateFrames == 0
    {
      hide Watch, Rely, Accounted, Quiet, Inv, ValidPolicy, SessionInv;
      alive := CheckControl();
      RequestedQuiet(old(world.s), world.s);
      if alive {
        ghost var a := world.s;
        NothingLate(a, Account());
        alive := Heartbeat();
        RequestedQuiet(a, world.s);
        if !alive {
          a := world.s;
          Fail(WatchdogFailure);
          RequestedQuiet(a, world.s);
        }
      }
    }

    method Transmit()
      requires AfterKey() && NoSignalYet() && !hasFault && source.position == 0
      modifies this`hasFault, this`wasCancelled, this`error, this`secondaryErrors, this`state, this`trace
      modifies this`audioIsOpen, this`submittedFrames, this`nonSilentAudioWasReleased, world, source
      ensures AfterKey() && MonitorOf(world.s).tail == NO_TAIL
      ensures !hasFault ==> MonitorOf(world.s).signal == Signal(source.samples, false, true, false, false)
    {
      hide Watch, Rely, Accounted, Quiet, Inv, ValidPolicy, SessionInv;
      SetState(Transmitting);
      while !source.IsExhausted() && !hasFault
        invariant SignalInOrder()
        decreases !hasFault, |source.samples| - source.position
      {
        TransmitBlock();
      }
      if !hasFault {
        FinishSignal();
      }
    }

    method FinishSignal()
      requires SignalInOrder() && !hasFault && source.position == |source.samples|
      modifies this`audioIsOpen, world
      ensures AfterKey() && MonitorOf(world.s).tail == NO_TAIL
      ensures MonitorOf(world.s).signal == Signal(source.samples, false, true, false, false)
    {
      hide Watch, Rely, Accounted, Quiet, Inv, ValidPolicy, SessionInv;
      var t := Next();
      RequestedQuiet(old(world.s), world.s);
      NothingGated();
      Act(SignalFinished);
    }

    lemma NothingGated()
      requires Valid()
      ensures MonitorOf(world.s).signal.gated == hasFault
    {
      NothingLate(world.s, Account());
    }

    /** The endpoint's own view after the end of the signal. */
    predicate SignalDone()
      reads this, world, source, lease
    {
      var g := MonitorOf(world.s).signal;
      AfterKey() && (!hasFault ==> g.queued == source.samples && g.finished) && MonitorOf(world.s).tail == NO_TAIL
    }

    lemma DoneQuiet(s: Shared, t: Shared)
      requires Quiet(s, t)
      ensures MonitorOf(t).signal.queued == MonitorOf(s).signal.queued
      ensures MonitorOf(t).signal.finished == MonitorOf(s).signal.finished
      ensures MonitorOf(s).signal.drained ==> MonitorOf(t).signal.drained
      ensures MonitorOf(s).signal.cleanAfterFinish ==> MonitorOf(t).signal.cleanAfterFinish
    {
      hide Watch;
    }

    method Drain()
      requires SignalDone() && !hasFault
      modifies this`hasFault, this`wasCancelled, this`error, this`secondaryErrors, this`state, this`trace
      modifies this`audioIsOpen, world, source`isCancelled
      ensures SignalDone()
      ensures !hasFault ==> MonitorOf(world.s).signal.drained && MonitorOf(world.s).signal.cleanAfterFinish
    {
      hide Watch, Rely, Accounted, Quiet, Inv, ValidPolicy, SessionInv;
      SetState(Draining);
      var t := Next();
      ghost var a := world.s;
      RequestedQuiet(old(world.s), a);
      DoneQuiet(old(world.s), a);
      var deadline := world.s.now + request.policy.audioDrainTimeout * MILLISECOND;
      var ok := CheckControl();
      RequestedQuiet(a, world.s);
      DoneQuiet(a, world.s);
      if !ok {
        ghost var b := world.s;
        GateAgain();
        RequestedQuiet(b, world.s);
        DoneQuiet(b, world.s);
      }
      AwaitDrain(deadline);
      if !hasFault {
        FinishDrain();
      }
    }

    /** gateSignal on a session that already has a fault. */
    method GateAgain()
      requires Valid() && hasFault
      modifies world
      ensures Valid() && Quiet(old(world.s), world.s)
    {
      hide Watch, Rely, Accounted, Quiet, ValidPolicy, Inv;
      var t := Next();
      ghost var a := world.s;
      ghost var books := Account();
      GatedQuiet(a);
      world.s := Emit(world.s, Gated);
      SessionQuiet(a, world.s, books);
      QuietTransitive(old(world.s), a, world.s);
    }

    method AwaitDrain(deadline: int)
      requires SignalDone()
      modifies this`hasFault, this`wasCancelled, this`error, this`secondaryErrors, this`state, this`trace
      modifies world, source`isCancelled
      ensures SignalDone()
    {
      hide Watch, Rely, Accounted, Quiet, Inv, SessionInv;
      while !hasFault
        invariant SignalDone()
        decreases !hasFault, deadline - world.s.now
      {
        ghost var a := world.s;
        var drained, now := PollDrain();
        if drained || now >= deadline {
          break;
        }
        ghost var b := world.s;
        var ok := WaitPhase(request.policy.heartbeatInterval * MILLISECOND);
        RequestedQuiet(b, world.s);
        DoneQuiet(b, world.s);
        if !ok {
          break;
        }
      }
    }

    method PollDrain() returns (drained: bool, now: int)
      requires SignalDone()
      modifies world
      ensures SignalDone()
      ensures old(world.s.now) <= now <= world.s.now
    {
      hide Watch, Rely, Accounted, Quiet, Inv, ValidPolicy, SessionInv;
      var status := ReadStatus();
      RequestedQuiet(old(world.s), world.s);
      DoneQuiet(old(world.s), world.s);
      drained := status.isDrained;
      ghost var a := world.s;
      var t := Next();
      RequestedQuiet(a, world.s);
      DoneQuiet(a, world.s);
      now := world.s.now;
    }

    method FinishDrain()
      requires SignalDone() && !hasFault
      modifies this`hasFault, this`wasCancelled, this`error, this`secondaryErrors, this`state, this`trace
      modifies this`audioIsOpen, world, source`isCancelled
      ensures SignalDone()
      ensures !hasFault ==> MonitorOf(world.s).signal.drained && MonitorOf(world.s).signal.cleanAfterFinish
    {
      hide Watch, Step, Grounds, Rely, Accounted, Quiet, Inv, ValidPolicy, SessionInv;
      var ok := CheckControl();
      RequestedQuiet(old(world.s), world.s);
      DoneQuiet(old(world.s), world.s);
      if !hasFault {
        ghost var a := world.s;
        NothingGated();
        var status := ReadStatus();
        RequestedQuiet(a, world.s);
        DoneQuiet(a, world.s);
        if !status.isDrained {
          FailDrain();
        }
      }
    }

    method FailDrain()
      requires SignalDone() && !hasFault
      modifies this`hasFault, this`error, this`secondaryErrors, this`state, this`trace, this`audioIsOpen
      modifies world, source`isCancelled
      ensures SignalDone() && hasFault
    {
      hide Watch, Step, Rely, Accounted, Quiet, Inv, ValidPolicy, SessionInv;
      FailureStep(MonitorOf(world.s), DrainTimedOut);
      Act(DrainTimedOut);
      ghost var a := world.s;
      Fail(DrainTimeout);
      RequestedQuiet(a, world.s);
    }

    /** The signal was sent and played out without a fault, if there is no fault. */
    predicate SignalPlayed()
      reads this, world, source, lease
    {
      AfterKey() && (!hasFault ==> MonitorOf(world.s).signal == Signal(source.samples, false, true, true, true))
    }

    /** The result of the wait is ignored: a failed heartbeat merely cuts the tail short.
        Without a fault the tail lasts its whole duration if and only if no heartbeat
        failed before the duration had passed. */
    method HoldTail()
      requires SignalPlayed() && !hasFault && MonitorOf(world.s).tail == NO_TAIL
      modifies this`hasFault, this`wasCancelled, this`error, this`secondaryErrors, this`state, this`trace
      modifies this`audioIsOpen, world, source`isCancelled
      ensures SignalPlayed()
      ensures var (g, duration) := (MonitorOf(world.s).tail, request.policy.postAudioTail * MILLISECOND);
              !hasFault ==>
                && TailHeld(MonitorOf(world.s), duration)
                && g.begunAt == old(world.s.now) && g.endedAt == world.s.now
                && (old(world.s.now) + duration <= world.s.now <==> !g.cut)
    {
      hide Watch, Step, Rely, Accounted, Quiet, Inv, ValidPolicy, SessionInv;
      SetState(PostAudioTail);
      var duration := request.policy.postAudioTail * MILLISECOND;
      BeginTail(duration);
      ghost var a := world.s;
      var ok := WaitPhase(duration);
      RequestedQuiet(a, world.s);
      DoneQuiet(a, world.s);
      NothingGated();
      if !hasFault {
        TailSteps(MonitorOf(world.s), world.s.now, duration);
        Act(TailEnded(world.s.now));
      }
    }

    method BeginTail(duration: int)
      requires SignalPlayed() && !hasFault && MonitorOf(world.s).tail == NO_TAIL
      modifies this`audioIsOpen, world
      ensures SignalPlayed() && world.s.now == old(world.s.now)
      ensures MonitorOf(world.s).tail == Tail(true, world.s.now, duration, false, 0, false)
    {
      hide Watch, Step, Rely, Accounted, Quiet, Inv, ValidPolicy, SessionInv;
      TailSteps(MonitorOf(world.s), world.s.now, duration);
      Act(TailBegun(world.s.now, duration));
    }

    /** The phases are over: either a fault came before the key request, or a lease exists. */
    predicate PhasesDone()
      reads this, world, source, lease
    {
      var m := MonitorOf(world.s);
      && Valid()
      && (m.keys == 0 ==>
            hasFault && m.teardown == Teardown(false, 0, 0, 0) && (lease != null ==> !lease.isActive))
      && (m.keys > 0 ==> AfterKey())
      && (!hasFault ==>
            && m.keys > 0 && m.signal == Signal(source.samples, false, true, true, true)
            && TailHeld(m, request.policy.postAudioTail * MILLISECOND))
    }

    predicate Ending(stopped: nat)
      reads this, world
    {
      EndInv(world.s, Account(), stopped) && |trace| <= MAXIMUM_TRACE_ENTRIES
    }

    lemma AccountedWithoutKey(s: Shared)
      requires MonitorOf(s).keys == 0
      ensures Accounted(s)
    {
      hide Watch;
    }

    /** The mandatory unkey: whenever a key request may have keyed the transmitter. */
    method ReleaseLease()
      requires PhasesDone()
      modifies this`hasFault, this`error, this`secondaryErrors, this`state, this`trace, world, lease
      ensures Ending(0)
      ensures old(hasFault) ==> hasFault
    {
      hide Watch, Rely, Accounted, Quiet, Inv, ValidPolicy, Released, EndInv;
      if hasFault {
        ghost var a := world.s;
        GateAgain();
        DoneQuiet(a, world.s);
        if MonitorOf(a).keys > 0 {
          RequestedQuiet(a, world.s);
        } else {
          QuietTeardown(a, world.s);
        }
      }
      if lease != null && lease.isActive {
        ReleaseActiveLease();
      } else {
        if MonitorOf(world.s).keys == 0 {
          AccountedWithoutKey(world.s);
        }
        EndWithoutKey(world.s, Account());
      }
    }

    lemma QuietTeardown(s: Shared, t: Shared)
      requires Quiet(s, t)
      ensures MonitorOf(t).teardown == MonitorOf(s).teardown && MonitorOf(t).keys == MonitorOf(s).keys
    {
      hide Watch;
    }

    method ReleaseActiveLease()
      requires SignalPlayed() && lease.isActive
      requires !hasFault ==> TailHeld(MonitorOf(world.s), request.policy.postAudioTail * MILLISECOND)
      modifies this`hasFault, this`error, this`secondaryErrors, this`state, this`trace, world, lease
      ensures Ending(0)
      ensures old(hasFault) ==> hasFault
    {
      hide Watch, Rely, Accounted, Quiet, Inv, ValidPolicy, Released, EndInv;
      SetState(Unkeying);
      ghost var books := Account();
      ghost var a := world.s;
      SessionRunning(a, books);
      var cleanup := lease.Release();
      ReleasedBooks(a, world.s, books);
      EndReleased(a, world.s, books);
      if cleanup.hasHazard {
        if hasFault {
          secondaryErrors := secondaryErrors + 1;
        } else {
          hasFault, error := true, CleanupFailure;
        }
      }
    }

    lemma SessionRunning(s: Shared, b: Books)
      requires SessionInv(s, b)
      ensures Inv(s) && !s.dog.stopRequested
    {
      hide Watch;
    }

    method NextEnding(stopped: nat)
      requires Ending(stopped)
      modifies world
      ensures Ending(stopped) && MonitorOf(world.s).trouble == MonitorOf(old(world.s)).trouble
    {
      hide Watch, Accounted, EndInv;
      EndFacts(world.s, Account(), stopped);
      var t := world.Yield();
      EndRely(old(world.s), world.s, Account(), stopped);
    }

    lemma EndFacts(s: Shared, b: Books, stopped: nat)
      requires EndInv(s, b, stopped)
      ensures Inv(s) && Accounted(s)
      ensures MonitorOf(s).setup.audioOpen == b.audioIsOpen
      ensures var m := MonitorOf(s); m.teardown == Teardown(m.keys > 0, stopped, stopped, stopped)
    {
      hide Watch;
    }

    /** The watchdog is told the outcome. */
    method FinishWatchdog()
      requires Ending(0) && watchdog != null && watchdog.world == world
      modifies world
      ensures Ending(0)
    {
      hide Watch, Accounted, DogRely, EndInv;
      NextEnding(0);
      var safety := world.s.safety;
      ghost var a := world.s;
      EndFacts(a, Account(), 0);
      watchdog.Finish(safety.certainty, safety.hasHazard);
      EndRely(a, world.s, Account(), 0);
    }

    /** AudioEndpointGuard::cleanup. */
    method StopAudio()
      requires Ending(0) && audioIsOpen
      modifies this`audioFailed, world
      ensures Ending(1)
      ensures audioFailed ==> CleanupFailure in MonitorOf(world.s).trouble.causes
    {
      hide Watch, Accounted, EndInv, Stopping;
      EndFacts(world.s, Account(), 0);
      ghost var s0 := world.s;
      assert Stopping(s0, s0, 0, 0, 0) by {
        StoppingStart(s0);
      }
      var requested := StopStep(s0, 0, 0, 0);
      var stopped := StopStep(s0, 1, 0, 0);
      var closed := StopStep(s0, 1, 1, 0);
      audioFailed := !requested || !stopped || !closed;
      EndStopped(s0, world.s, Account());
    }

    lemma StoppingStart(s: Shared)
      requires Inv(s) && MonitorOf(s).teardown == Teardown(MonitorOf(s).teardown.released, 0, 0, 0)
      ensures Stopping(s, s, 0, 0, 0)
    {
      hide Watch;
    }

    lemma StoppingInv(s: Shared, t: Shared, requests: nat, stops: nat, closes: nat)
      requires Stopping(s, t, requests, stops, closes)
      ensures Inv(t)
    {
    }

    /** Requests the stop, stops or closes the endpoint, whichever is next. */
    method StopStep(ghost s0: Shared, requests: nat, stops: nat, closes: nat) returns (ok: bool)
      requires Stopping(s0, world.s, requests, stops, closes) && MonitorOf(s0).setup.audioOpen
      requires MonitorOf(s0).keys > 0 ==> MonitorOf(s0).teardown.released
      requires requests <= 1 && stops <= requests && closes <= stops && closes == 0
      modifies world
      ensures Stopping(s0, world.s, 1, requests, stops)
      ensures MonitorOf(old(world.s)).trouble.causes <= MonitorOf(world.s).trouble.causes
      ensures !ok ==> CleanupFailure in MonitorOf(world.s).trouble.causes
    {
      hide Watch, Accounted, Stopping, DogRely;
      StoppingInv(s0, world.s, requests, stops, closes);
      var t := world.Yield();
      StoppingRely(s0, old(world.s), world.s, requests, stops, closes);
      ok := t.endpoint.ok;
      var e := if requests == 0 then StopRequested(ok) else if stops == 0 then Stopped(ok) else Closed(ok);
      StoppingStep(s0, world.s, e, requests, stops, closes);
      world.s := Emit(world.s, e);
    }

    /** From the unkey to the outcome. The outcome is read from a safety record that a
        watchdog still cleaning up may change afterwards. */
    method Conclude() returns (outcome: TransmitOutcome)
      requires PhasesDone() && (lease != null ==> lease.world == world) && (watchdog != null ==> watchdog.world == world)
      modifies this, world, lease
      ensures EndInv(world.s, Account(), if audioIsOpen then 1 else 0)
      ensures outcome.OutcomeCompleted? ==> !hasFault && !wasCancelled
      ensures outcome.OutcomeCancelled? ==> wasCancelled
      ensures outcome.OutcomeFaulted? ==> hasFault
      ensures !outcome.OutcomeRejected?
      ensures watchdog == old(watchdog)
      ensures !Troubled(world.s) ==> outcome.OutcomeCompleted?
      // the outcome is hazardous exactly with a hazard on record now, and a fault has its cause
      ensures outcome.OutcomeHazardous? <==> world.s.safety.hasHazard
      ensures outcome.OutcomeCancelled? ==> world.s.cancelled || world.s.shuttingDown
      ensures hasFault <==> !error.NoTransmitError?
      ensures hasFault ==> Grounds(world.s, error)
      ensures |trace| <= MAXIMUM_TRACE_ENTRIES
    {
      hide Watch, Accounted, EndInv, PhasesDone;
      ReleaseLease();
      if watchdog != null {
        FinishWatchdog();
      }
      NextEnding(0);
      if world.s.cancelled || world.s.shuttingDown {
        EndCancelled(world.s, Account(), 0);
        wasCancelled := true;
      }
      if audioIsOpen {
        StopAudio();
        if audioFailed && !hasFault {
          EndFault(world.s, Account(), 1);
          hasFault, error := true, CleanupFailure;
        }
      }
      NextEnding(if audioIsOpen then 1 else 0);
      outcome := Outcome(world.s.safety.hasHazard);
      EndExplained(world.s, Account(), if audioIsOpen then 1 else 0);
    }

    lemma EndExplained(s: Shared, b: Books, stopped: nat)
      requires EndInv(s, b, stopped)
      ensures b.hasFault || b.wasCancelled || s.safety.hasHazard ==> Troubled(s)
      ensures (b.hasFault ==> Grounds(s, b.error)) && (!b.hasFault ==> b.error.NoTransmitError?)
      ensures b.wasCancelled ==> s.cancelled || s.shuttingDown
    {
      hide Watch;
    }

    method Outcome(hasHazard: bool) returns (outcome: TransmitOutcome)
      requires |trace| <= MAXIMUM_TRACE_ENTRIES
      modifies this`state, this`trace
      ensures |trace| <= MAXIMUM_TRACE_ENTRIES
      ensures outcome == if hasHazard then OutcomeHazardous else if wasCancelled then OutcomeCancelled
                         else if hasFault then OutcomeFaulted else OutcomeCompleted
    {
      if hasHazard {
        SetState(Faulted);
        outcome := OutcomeHazardous;
      } else if wasCancelled {
        SetState(Cancelled);
        outcome := OutcomeCancelled;
      } else if hasFault {
        SetState(Faulted);
        outcome := OutcomeFaulted;
      } else {
        SetState(Completed);
        SetState(Idle);
        outcome := OutcomeCompleted;
      }
    }

    /** Audio, watchdog, key request, signal: everything before the mandatory unkey. */
    method RunPhases()
      requires Valid() && !hasFault && watchdog == null && lease == null && OnlySetup(MonitorOf(world.s))
      requires MonitorOf(world.s).setup == Setup(true, 0, false, false, false, false, false)
      requires source.position == 0
      modifies this, world, source
      ensures PhasesDone()
      ensures lease != null ==> fresh(lease)
      ensures watchdog != null ==> watchdog.world == world
    {
      hide Watch, Rely, Accounted, Quiet, Inv, ValidPolicy, SessionInv;
      OpenAudio();
      if !hasFault {
        PrimeAudio();
      }
      if !hasFault {
        ArmWatchdog();
      }
      if !hasFault {
        KeyTransmitter();
        if !hasFault {
          HoldPreKeyDelay();
        }
        if !hasFault {
          SendSignal();
        }
      }
    }

    method SendSignal()
      requires AfterKey() && NoSignalYet() && !hasFault && source.position == 0
      modifies this`hasFault, this`wasCancelled, this`error, this`secondaryErrors, this`state, this`trace
      modifies this`audioIsOpen, this`submittedFrames, this`nonSilentAudioWasReleased, world, source
      ensures SignalPlayed()
      ensures !hasFault ==> TailHeld(MonitorOf(world.s), request.policy.postAudioTail * MILLISECOND)
    {
      hide Watch, Rely, Accounted, Quiet, Inv, ValidPolicy, SessionInv;
      Transmit();
      if !hasFault {
        Drain();
        NothingGated();
        if !hasFault {
          HoldTail();
        }
      }
    }
  }
}
