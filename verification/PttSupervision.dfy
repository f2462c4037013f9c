/** PttSupervisor, PttWatchdog and PttLease (src/rig/ptt.cpp) as the run thread uses
    them. Between any two accesses of the run thread to shared state the world takes an
    arbitrary number of environment steps; the script that chooses them is arbitrary, so
    a contract proved here holds in every interleaving. */
module PttSupervision {
  import opened Ptt
  import opened TransmitLog
  import opened TransmitWorld

  datatype EndpointReply = EndpointReply(ok: bool, queued: nat, status: AudioStatus)

  datatype SourceReply = SourceReply(fails: bool, count: nat)

  /** What everyone else does before one action of the run thread, and how the
      provider, the audio endpoint and the sample source answer that action. */
  datatype Turn = Turn(
    steps: seq<EnvStep>,
    provider: PttOperationResult,
    endpoint: EndpointReply,
    source: SourceReply,
    elapsed: nat)

  // ------------------------------------------------- run-thread view of progress

  predicate QuietSignal(a: Signal, b: Signal) {
    && b.queued == a.queued && b.finished == a.finished
    && (a.gated ==> b.gated)
    && (a.cleanAfterFinish ==> b.cleanAfterFinish)
    && (a.drained ==> b.drained)
    && (!a.finished ==> b.cleanAfterFinish == a.cleanAfterFinish && b.drained == a.drained)
  }

  predicate QuietMonitor(a: Monitor, b: Monitor) {
    && b.bad == a.bad && b.keys == a.keys && b.keyOk == a.keyOk && b.lateFrames == a.lateFrames
    && b.teardown == a.teardown
    && b.setup == a.setup.(confirmed := b.setup.confirmed)
    && (a.setup.confirmed ==> b.setup.confirmed)
    && QuietSignal(a.signal, b.signal)
    && b.tail == a.tail.(cut := b.tail.cut) && (a.tail.cut ==> b.tail.cut)
    && (!a.tail.begun || a.tail.ended ==> b.tail == a.tail)
    && (a.trouble != NO_TROUBLE ==> b.trouble != NO_TROUBLE) && a.trouble.causes <= b.trouble.causes
    && (a.danger.expired ==> b.danger.expired)
    && (a.danger.unkeyedAfterKey ==> b.danger.unkeyedAfterKey)
  }

  predicate QuietDog(a: Dog, b: Dog) {
    && b.lease == a.lease && b.stopRequested == a.stopRequested && b.policy == a.policy
    && a.expiry <= b.expiry
    && (a.hasExpired ==> b.hasExpired)
    && (b.isArmed ==> a.isArmed)
    && (a.isArmed && !b.isArmed ==> b.hasExpired)
    && (a.worker.Absent? <==> b.worker.Absent?)
    && (a.worker.Absent? ==> b.hasExpired == a.hasExpired && b.expiry == a.expiry)
    && (!a.isArmed && (a.worker.AtHead? || a.worker.Exited?) ==>
          (b.worker.AtHead? || b.worker.Exited?) && b.hasExpired == a.hasExpired)
  }

  /** Any mixture of environment steps with run-thread actions that neither set up,
      key, queue, record nor tear down. */
  predicate Quiet(a: Shared, b: Shared) {
    && Inv(b)
    && a.now <= b.now
    && (a.cancelled ==> b.cancelled) && (a.shuttingDown ==> b.shuttingDown)
    && QuietDog(a.dog, b.dog)
    && QuietMonitor(MonitorOf(a), MonitorOf(b))
    && (Accounted(a) ==> Accounted(b))
    && (!b.dog.hasExpired ==> b.safety == a.safety)
  }

  lemma RelyIsQuiet(a: Shared, b: Shared)
    requires Rely(a, b)
    ensures Quiet(a, b)
  {
    hide Watch;
  }

  lemma QuietReflexive(s: Shared)
    requires Inv(s)
    ensures Quiet(s, s)
  {
  }

  lemma QuietTransitive(a: Shared, b: Shared, c: Shared)
    requires Quiet(a, b) && Quiet(b, c)
    ensures Quiet(a, c)
  {
    hide Watch;
  }

  lemma StatusQuiet(s: Shared, status: AudioStatus)
    requires Inv(s)
    ensures Quiet(s, Emit(s, StatusRead(status)))
    ensures MonitorOf(Emit(s, StatusRead(status))) == OnStatus(MonitorOf(s), status)
  {
    hide Watch, Step, OnStatus, QuietMonitor;
    WatchAppend(s.log, StatusRead(status));
    StatusStep(MonitorOf(s), status);
    StatusKeeps(MonitorOf(s), status);
  }

  lemma StatusKeeps(m: Monitor, status: AudioStatus)
    ensures QuietMonitor(m, OnStatus(m, status))
  {
  }

  lemma GatedQuiet(s: Shared)
    requires Inv(s)
    ensures Quiet(s, Emit(s, Gated))
    ensures MonitorOf(Emit(s, Gated)) == MonitorOf(s).(signal := MonitorOf(s).signal.(gated := true))
  {
    hide Watch;
    WatchAppend(s.log, Gated);
  }

  lemma RefusedQuiet(s: Shared, action: PttAction)
    requires Inv(s) && !action.Key?
    ensures Quiet(s, Emit(s, Refused(RunThread, action)))
    ensures var n := MonitorOf(Emit(s, Refused(RunThread, action))); n.signal == MonitorOf(s).signal && n.tail == MonitorOf(s).tail
  {
    hide Watch;
    WatchAppend(s.log, Refused(RunThread, action));
  }

  lemma QueryQuiet(s: Shared, result: PttOperationResult)
    requires Inv(s)
    ensures Quiet(s, Emit(s, Provider(RunThread, Query, result)))
    ensures IsConfirmedUnkeyed(result) ==> MonitorOf(Emit(s, Provider(RunThread, Query, result))).setup.confirmed
  {
    hide Watch;
    WatchAppend(s.log, Provider(RunThread, Query, result));
  }

  lemma UnkeyQuiet(s: Shared, result: PttOperationResult)
    requires Inv(s)
    ensures var t := Emit(s, Provider(RunThread, Unkey, result));
            && Quiet(s, t)
            && MonitorOf(t).signal == MonitorOf(s).signal && MonitorOf(t).tail == MonitorOf(s).tail
            && (result.certainty.DefinitelyUnkeyed? ==>
                  MonitorOf(t).setup.confirmed && (MonitorOf(t).keys > 0 ==> MonitorOf(t).danger.unkeyedAfterKey))
  {
    hide Watch;
    WatchAppend(s.log, Provider(RunThread, Unkey, result));
  }

  lemma BeatQuiet(s: Shared, ok: bool)
    requires Inv(s)
    ensures Quiet(s, Emit(s, Beat(ok, s.now)))
    ensures MonitorOf(Emit(s, Beat(ok, s.now))) == OnBeat(MonitorOf(s), ok, s.now)
  {
    hide Watch;
    WatchAppend(s.log, Beat(ok, s.now));
  }

  // ------------------------------------------------------------------- scheduling

  /** The watchdog worker is never left unscheduled longer than `grace` past the expiry. */
  predicate Prompt(s: Shared, grace: nat) {
    s.dog.isArmed && !s.dog.worker.Absent? && s.dog.expiry + grace <= s.now ==> s.dog.hasExpired
  }

  function StepsToExpiry(w: Worker): nat {
    match w
    case AtHead => 4
    case Sleeping(_) => 3
    case Awake => 2
    case Checking(_) => 1
    case _ => 0
  }

  lemma OverdueWorkerAdvances(s: Shared, reply: PttOperationResult, grace: nat)
    requires Inv(s) && !s.dog.stopRequested && !Prompt(s, grace)
    ensures StepWorker(s, reply).now == s.now
    ensures if s.dog.worker.Expiring? then StepWorker(s, reply).dog.hasExpired
            else StepsToExpiry(StepWorker(s, reply).dog.worker) < StepsToExpiry(s.dog.worker)
    ensures s.dog.worker.Expiring? ==> StepsToExpiry(StepWorker(s, reply).dog.worker) == 0
  {
    hide Watch;
  }

  class World {
    var s: Shared
    var turn: nat
    const script: nat -> Turn
    const grace: nat

    constructor (s: Shared, script: nat -> Turn, grace: nat)
      ensures this.s == s && this.turn == 0 && this.script == script && this.grace == grace
    {
      this.s, this.turn, this.script, this.grace := s, 0, script, grace;
    }

    /** A scheduling point. */
    method Yield() returns (t: Turn)
      requires Inv(s)
      modifies this
      ensures t == script(old(turn)) && turn == old(turn) + 1
      ensures Rely(old(s), s)
      ensures s.dog.expiry == old(s.dog.expiry) && old(s.now) <= s.now && Inv(s)
    {
      hide Watch;
      t := script(turn);
      ApplyRely(s, t.steps);
      s, turn := Apply(s, t.steps), turn + 1;
    }

    /** Runs a worker whose deadline passed until it has published the expiry. */
    method RunOverdueWorker(reply: PttOperationResult)
      requires Inv(s) && !s.dog.stopRequested
      modifies this`s
      ensures Rely(old(s), s) && s.now == old(s.now) && Prompt(s, grace)
    {
      hide Watch;
      while !Prompt(s, grace)
        invariant Rely(old(s), s) && s.now == old(s.now)
        decreases StepsToExpiry(s.dog.worker) + if s.dog.hasExpired then 0 else 1
      {
        ghost var before := s;
        StepWorkerRely(s, reply);
        OverdueWorkerAdvances(s, reply, grace);
        s := StepWorker(s, reply);
        RelyTransitive(old(s), before, s);
      }
    }

    /** MonotonicScheduler::waitUntil may return early, but takes time, and lets a
        worker whose deadline passed run. */
    method Wait()
      requires Inv(s) && !s.dog.stopRequested
      modifies this
      ensures Rely(old(s), s)
      ensures old(s.now) < s.now && Prompt(s, grace)
      ensures s.dog.expiry == old(s.dog.expiry) && old(s.now) <= s.now && Inv(s)
    {
      hide Watch;
      var t := Yield();
      ghost var mid := s;
      ApplyStepRely(s, Tick(1));
      s := ApplyStep(s, Tick(1));
      RelyTransitive(old(s), mid, s);
      ghost var later := s;
      RunOverdueWorker(t.provider);
      RelyTransitive(old(s), later, s);
    }
  }

  // ------------------------------------------------------------------- supervisor

  class PttSupervisor {
    const world: World

    constructor (world: World)
      ensures this.world == world
    {
      this.world := world;
    }

    method Execute(action: PttAction, deadline: int, attempt: nat)
      returns (result: PttOperationResult, ghost before: Shared, ghost reply: PttOperationResult)
      requires Inv(world.s)
      modifies world
      ensures Rely(old(world.s), before)
      ensures (world.s, result) == TransmitWorld.Execute(before, RunThread, action, attempt, deadline, reply)
      ensures world.turn == old(world.turn) + 1
    {
      hide Watch;
      var t := world.Yield();
      before, reply := world.s, t.provider;
      var outcome := TransmitWorld.Execute(world.s, RunThread, action, attempt, deadline, t.provider);
      world.s, result := outcome.0, outcome.1;
    }

    /** One attempt of the unkey loop. */
    method TryUnkey(timeout: nat, attempt: nat) returns (confirmed: bool)
      requires Inv(world.s)
      modifies world
      ensures Quiet(old(world.s), world.s)
      ensures MonitorOf(world.s).signal == MonitorOf(old(world.s)).signal && MonitorOf(world.s).tail == MonitorOf(old(world.s)).tail
      ensures confirmed ==> MonitorOf(world.s).setup.confirmed
      ensures confirmed && MonitorOf(world.s).keys > 0 ==> MonitorOf(world.s).danger.unkeyedAfterKey
    {
      hide Watch;
      var t := world.Yield();
      ghost var a := world.s;
      var deadline := world.s.now + timeout;
      var result, before, reply := Execute(Unkey, deadline, attempt);
      confirmed := result.certainty.DefinitelyUnkeyed?;
      if deadline <= before.now || attempt == 0 {
        RefusedQuiet(before, Unkey);
      } else {
        UnkeyQuiet(before, result);
      }
      RelyIsQuiet(old(world.s), a);
      RelyIsQuiet(a, before);
      QuietTransitive(old(world.s), a, before);
      QuietTransitive(old(world.s), before, world.s);
    }

    method UnkeyWithRetries(policy: PttCleanupPolicy) returns (cleanup: PttCleanupResult)
      requires Inv(world.s) && !world.s.dog.stopRequested
      modifies world
      ensures Quiet(old(world.s), world.s) && Inv(world.s)
      ensures MonitorOf(world.s).signal == MonitorOf(old(world.s)).signal && MonitorOf(world.s).tail == MonitorOf(old(world.s)).tail
      ensures cleanup.attempts <= policy.unkeyAttempts
      ensures cleanup.hasHazard <==> !cleanup.certainty.DefinitelyUnkeyed?
      ensures !cleanup.hasHazard ==> MonitorOf(world.s).setup.confirmed
      ensures !cleanup.hasHazard && MonitorOf(world.s).keys > 0 ==> MonitorOf(world.s).danger.unkeyedAfterKey
    {
      hide Watch;
      cleanup := UNCONFIRMED;
      RelyIsQuiet(world.s, world.s);
      for attempt := 1 to policy.unkeyAttempts + 1
        invariant Quiet(old(world.s), world.s) && MonitorOf(world.s).signal == MonitorOf(old(world.s)).signal
        invariant MonitorOf(world.s).tail == MonitorOf(old(world.s)).tail
        invariant cleanup == PttCleanupResult(Indeterminate, attempt - 1, true)
      {
        ghost var a := world.s;
        var confirmed := TryUnkey(policy.unkeyTimeout, attempt);
        QuietTransitive(old(world.s), a, world.s);
        if confirmed {
          cleanup := PttCleanupResult(DefinitelyUnkeyed, attempt, false);
          return;
        }
        cleanup := cleanup.(attempts := attempt);
        if attempt < policy.unkeyAttempts && policy.retryDelay > 0 {
          ghost var b := world.s;
          world.Wait();
          RelyIsQuiet(b, world.s);
          QuietTransitive(old(world.s), b, world.s);
        }
      }
    }
  }

  // --------------------------------------------------------------------- watchdog

  /** Steps a stopped worker still takes before it exits. */
  function StepsToExit(d: Dog): nat {
    var tries := 2 * d.policy.unkeyAttempts;
    match d.worker
    case Absent => 0
    case Exited => 0
    case AtHead => 1
    case Disarming => 2
    case Recording(_) => 3
    case UnkeyCalling(attempt, _) => 4 + if attempt <= d.policy.unkeyAttempts then tries - 2 * attempt else 0
    case UnkeyStarting(attempt) => 5 + if attempt <= d.policy.unkeyAttempts then tries - 2 * attempt else 0
    case Expiring => 6 + tries
    case Checking(_) => 7 + tries
    case Awake => 8 + tries
    case Sleeping(_) => 9 + tries
  }

  lemma StoppedWorkerAdvances(s: Shared, reply: PttOperationResult)
    requires DogInv(s.dog, s.now) && s.dog.stopRequested && StepsToExit(s.dog) > 0
    ensures StepsToExit(StepWorker(s, reply).dog) < StepsToExit(s.dog)
  {
    var d := s.dog;
    if d.worker.UnkeyCalling? {
      var result := Execute(s, Watchdog, Unkey, d.worker.attempt, d.worker.deadline, reply).1;
      assert StepWorker(s, reply).dog == d.(worker := AfterUnkeyAttempt(d.policy, d.worker.attempt, result));
    } else if d.worker.Expiring? || d.worker.Recording? {
    } else {
      assert StepWorker(s, reply).dog == SilentStep(d, s.now);
    }
  }

  class PttWatchdog {
    const world: World

    /** Starts the worker and waits until it is operational. */
    constructor (world: World, policy: PttCleanupPolicy)
      requires Inv(world.s) && world.s.dog.worker.Absent? && !world.s.dog.hasExpired && world.s.dog.expiry <= world.s.now
      modifies world
      ensures this.world == world
      ensures world.s == old(world.s).(dog := Dog(AtHead, false, false, 0, old(world.s.dog.expiry), false, policy))
      ensures Inv(world.s)
    {
      this.world := world;
      new;
      hide Watch;
      world.s := world.s.(dog := Dog(AtHead, false, false, 0, world.s.dog.expiry, false, policy));
    }

    /** Arms a watchdog that has not been armed before. */
    method Arm(leaseDuration: int) returns (ok: bool)
      requires Inv(world.s) && !world.s.dog.isArmed && !world.s.dog.hasExpired && world.s.dog.worker.AtHead?
      requires world.s.dog.expiry <= world.s.now && !world.s.dog.stopRequested
      modifies world
      ensures Inv(world.s) && old(world.s.now) <= world.s.now
      ensures ok <==> leaseDuration > 0
      ensures ok <==> world.s.dog.isArmed
      ensures ok ==> world.s.dog.lease == leaseDuration && world.s.dog.expiry <= world.s.now + leaseDuration
      ensures ok ==> old(world.s.now) + leaseDuration <= world.s.dog.expiry
      ensures !world.s.dog.hasExpired && world.s.dog.worker.AtHead? && !world.s.dog.stopRequested
      ensures EnvMonitor(MonitorOf(old(world.s)), MonitorOf(world.s))
      ensures (old(world.s.cancelled) ==> world.s.cancelled) && (old(world.s.shuttingDown) ==> world.s.shuttingDown)
    {
      hide Watch;
      var t := world.Yield();
      if world.s.dog.worker.Absent? || world.s.dog.worker.Exited? || leaseDuration <= 0 || world.s.dog.isArmed {
        return false;
      }
      world.s := world.s.(dog := world.s.dog.(hasExpired := false, lease := leaseDuration));
      t := world.Yield();
      world.s := world.s.(dog := world.s.dog.(expiry := world.s.now + leaseDuration));
      t := world.Yield();
      world.s := world.s.(dog := world.s.dog.(isArmed := true));
      ok := true;
    }

    /** Extends the lease unless it has run out. The accesses are separate: the worker
        may publish an expiry in between, but no later heartbeat succeeds then. */
    method Heartbeat() returns (ok: bool)
      requires Inv(world.s) && !world.s.dog.worker.Absent?
      modifies world
      ensures Quiet(old(world.s), world.s)
      ensures MonitorOf(world.s).signal == MonitorOf(old(world.s)).signal
      ensures MonitorOf(world.s).setup == MonitorOf(old(world.s)).setup
      ensures ok ==> !old(world.s.dog.hasExpired) && old(world.s.dog.isArmed)
      ensures ok ==> old(world.s.now) < old(world.s.dog.expiry)
      ensures ok ==> old(world.s.now) + world.s.dog.lease <= world.s.dog.expiry
      ensures !ok ==> world.s.dog.expiry == old(world.s.dog.expiry)
      // it fails only without an armed lease that has time left
      ensures !ok ==> !world.s.dog.isArmed || world.s.dog.hasExpired || world.s.dog.expiry <= world.s.now
      ensures MonitorOf(world.s) == OnBeat(MonitorOf(old(world.s)), ok, world.s.now).(danger := MonitorOf(world.s).danger)
    {
      hide Watch, Quiet;
      ok := TryExtend();
      ghost var a := world.s;
      BeatQuiet(a, ok);
      world.s := Emit(world.s, Beat(ok, world.s.now));
      QuietTransitive(old(world.s), a, world.s);
    }

    /** The checks and the extension; what the heartbeat answers is not on record yet. */
    method TryExtend() returns (ok: bool)
      requires Inv(world.s) && !world.s.dog.worker.Absent?
      modifies world
      ensures Quiet(old(world.s), world.s) && Inv(world.s)
      ensures MonitorOf(world.s) == MonitorOf(old(world.s)).(danger := MonitorOf(world.s).danger)
      ensures ok ==> !old(world.s.dog.hasExpired) && old(world.s.dog.isArmed)
      ensures ok ==> old(world.s.now) < old(world.s.dog.expiry)
      ensures ok ==> old(world.s.now) + world.s.dog.lease <= world.s.dog.expiry
      ensures !ok ==> world.s.dog.expiry == old(world.s.dog.expiry)
      ensures !ok ==> !world.s.dog.isArmed || world.s.dog.hasExpired || world.s.dog.expiry <= world.s.now
    {
      hide Watch;
      var t := world.Yield();
      if !world.s.dog.isArmed {
        RelyIsQuiet(old(world.s), world.s);
        return false;
      }
      ghost var a := world.s;
      t := world.Yield();
      RelyTransitive(old(world.s), a, world.s);
      if world.s.dog.hasExpired {
        RelyIsQuiet(old(world.s), world.s);
        return false;
      }
      ghost var b := world.s;
      ok := ExtendLease();
      RelyIsQuiet(old(world.s), b);
      QuietTransitive(old(world.s), b, world.s);
    }

    method ExtendLease() returns (ok: bool)
      requires Inv(world.s) && !world.s.dog.worker.Absent?
      modifies world
      ensures Quiet(old(world.s), world.s)
      ensures MonitorOf(world.s) == MonitorOf(old(world.s)).(danger := MonitorOf(world.s).danger)
      ensures !ok ==> world.s.dog.expiry <= world.s.now
      ensures ok ==> old(world.s.now) < old(world.s.dog.expiry)
      ensures ok ==> old(world.s.now) + world.s.dog.lease <= world.s.dog.expiry
      ensures !ok ==> world.s.dog.expiry == old(world.s.dog.expiry)
    {
      hide Watch, Inv, Accounted, Quiet;
      var t := world.Yield();
      var checkedAt := world.s.now;
      ghost var a := world.s;
      t := world.Yield();
      RelyTransitive(old(world.s), a, world.s);
      if checkedAt >= world.s.dog.expiry {
        RelyIsQuiet(old(world.s), world.s);
        return false;
      }
      a := world.s;
      t := world.Yield();
      RelyTransitive(old(world.s), a, world.s);
      var renewedAt := world.s.now;
      ExpiryBound(world.s);
      a := world.s;
      t := world.Yield();
      RelyTransitive(old(world.s), a, world.s);
      RelyIsQuiet(old(world.s), world.s);
      a := world.s;
      ExtensionQuiet(world.s, renewedAt);
      world.s := world.s.(dog := world.s.dog.(expiry := renewedAt + world.s.dog.lease));
      QuietTransitive(old(world.s), a, world.s);
      ok := true;
    }

    /** Disarms once the session's outcome is settled. */
    method Finish(certainty: PttCertainty, hasHazard: bool)
      requires Inv(world.s)
      modifies world
      ensures Inv(world.s)
      ensures EnvMonitor(MonitorOf(old(world.s)), MonitorOf(world.s))
      ensures Accounted(old(world.s)) ==> Accounted(world.s)
      ensures world.s.dog.stopRequested == old(world.s.dog.stopRequested)
      ensures old(world.s.cancelled) ==> world.s.cancelled
      ensures old(world.s.shuttingDown) ==> world.s.shuttingDown
      ensures !world.s.dog.hasExpired ==> world.s.safety == old(world.s.safety)
      ensures old(world.s.dog.hasExpired) ==> world.s.dog.hasExpired
      ensures certainty.DefinitelyUnkeyed? || hasHazard ==> !world.s.dog.isArmed
    {
      hide Watch;
      var t := world.Yield();
      if certainty.DefinitelyUnkeyed? || hasHazard {
        world.s := world.s.(dog := world.s.dog.(isArmed := false));
      }
    }

    /** The destructor: asks the worker to stop and joins it. A cleanup in progress is
        carried to its end. */
    method Join()
      requires Inv(world.s)
      modifies world
      ensures Inv(world.s)
      ensures EnvMonitor(MonitorOf(old(world.s)), MonitorOf(world.s))
      ensures Accounted(old(world.s)) ==> Accounted(world.s)
      ensures world.s.dog.worker.Exited? || world.s.dog.worker.Absent?
      ensures old(Troubled(world.s)) ==> Troubled(world.s)
      ensures old(world.s.cancelled) ==> world.s.cancelled
      ensures old(world.s.shuttingDown) ==> world.s.shuttingDown
      ensures old(world.s.dog.hasExpired) ==> world.s.dog.hasExpired
      ensures !world.s.dog.hasExpired ==> world.s.safety == old(world.s.safety)
    {
      hide Watch;
      var t := world.Yield();
      world.s := world.s.(dog := world.s.dog.(stopRequested := true));
      ghost var start := world.s;
      assert Rely(start, start);
      while StepsToExit(world.s.dog) > 0
        invariant Rely(start, world.s)
        decreases StepsToExit(world.s.dog)
      {
        ghost var a := world.s;
        var turn := world.script(world.turn);
        world.turn := world.turn + 1;
        ApplyStepRely(a, Tick(turn.elapsed));
        world.s := ApplyStep(world.s, Tick(turn.elapsed));
        ghost var b := world.s;
        StoppedWorkerAdvances(b, turn.provider);
        StepWorkerRely(b, turn.provider);
        world.s := StepWorker(world.s, turn.provider);
        RelyTransitive(start, a, b);
        RelyTransitive(start, b, world.s);
      }
    }
  }

  lemma ExpiryBound(s: Shared)
    requires Inv(s)
    ensures s.dog.expiry <= s.now + s.dog.lease
  {
  }

  lemma ExtensionQuiet(s: Shared, renewedAt: int)
    requires Inv(s) && renewedAt <= s.now && s.dog.expiry <= renewedAt + s.dog.lease && !s.dog.worker.Absent?
    ensures Quiet(s, s.(dog := s.dog.(expiry := renewedAt + s.dog.lease)))
  {
    hide Watch;
  }

  // ------------------------------------------------------------------------ lease

  /** What release leaves behind: as Quiet, but the cleanup is on record. */
  predicate Released(a: Shared, b: Shared) {
    var (m, n) := (MonitorOf(a), MonitorOf(b));
    && Inv(b) && Accounted(b) && a.now <= b.now
    && (a.cancelled ==> b.cancelled) && (a.shuttingDown ==> b.shuttingDown)
    && QuietDog(a.dog, b.dog)
    && n.bad == m.bad && n.keys == m.keys && n.keyOk == m.keyOk && n.lateFrames == m.lateFrames
    && n.teardown == m.teardown.(released := m.teardown.released || m.keys > 0)
    && n.setup == m.setup.(confirmed := n.setup.confirmed)
    && (m.setup.confirmed ==> n.setup.confirmed)
    && QuietSignal(m.signal, n.signal) && (n.signal.gated ==> m.signal.gated)
    && n.tail == m.tail
    && (m.trouble != NO_TROUBLE ==> n.trouble != NO_TROUBLE) && m.trouble.causes <= n.trouble.causes
    && (b.safety.hasHazard ==> CleanupFailure in n.trouble.causes)
  }

  lemma RecordReleases(a: Shared, s: Shared, cleanup: PttCleanupResult)
    requires Quiet(a, s) && MonitorOf(s).signal.gated == MonitorOf(a).signal.gated && MonitorOf(s).tail == MonitorOf(a).tail
    requires !cleanup.hasHazard && MonitorOf(s).keys > 0 ==> MonitorOf(s).danger.unkeyedAfterKey
    ensures Released(a, RecordCleanup(s, RunThread, cleanup))
    ensures MonitorOf(RecordCleanup(s, RunThread, cleanup)).danger.unkeyedAfterKey == MonitorOf(s).danger.unkeyedAfterKey
  {
    hide Watch;
    WatchAppend(s.log, CleanupRecorded(RunThread, cleanup));
  }

  class PttLease {
    const world: World
    const policy: PttCleanupPolicy
    var isActive: bool
    var hasReleased: bool

    constructor (world: World, policy: PttCleanupPolicy)
      ensures this.world == world && this.policy == policy && !isActive && !hasReleased
    {
      this.world, this.policy := world, policy;
      isActive, hasReleased := false, false;
    }

    method MarkKeyAttempt()
      requires Inv(world.s)
      modifies this, world
      ensures isActive && !hasReleased
      ensures Inv(world.s) && world.s.safety.hasHazard && old(world.s.now) <= world.s.now
      ensures (old(world.s.cancelled) ==> world.s.cancelled) && (old(world.s.shuttingDown) ==> world.s.shuttingDown)
      ensures DogRely(old(world.s.dog), world.s.dog)
      ensures EnvMonitor(MonitorOf(old(world.s)), MonitorOf(world.s))
    {
      hide Watch;
      isActive, hasReleased := true, false;
      var t := world.Yield();
      WatchAppend(world.s.log, KeyAttemptRecorded);
      world.s := RecordKeyAttempt(world.s);
    }

    /** A key request that certainly did not key gives the lease up at once. */
    method RecordKeyResult(result: PttOperationResult)
      requires Inv(world.s) && isActive && !hasReleased
      requires MonitorOf(world.s).keys > 0
      requires result.certainty.DefinitelyUnkeyed? ==> MonitorOf(world.s).danger.unkeyedAfterKey
      modifies this, world
      ensures !hasReleased
      ensures isActive <==> !(result.certainty.DefinitelyUnkeyed? && !result.mayHaveKeyed)
      ensures isActive ==> world.s == old(world.s)
      ensures !isActive ==> Released(old(world.s), world.s) && MonitorOf(world.s).danger.unkeyedAfterKey
    {
      hide Watch;
      if result.certainty.DefinitelyUnkeyed? && !result.mayHaveKeyed {
        isActive := false;
        var t := world.Yield();
        RelyIsQuiet(old(world.s), world.s);
        var safe := PttCleanupResult(DefinitelyUnkeyed, 0, false);
        RecordReleases(old(world.s), world.s, safe);
        world.s := RecordCleanup(world.s, RunThread, safe);
      }
    }

    method Release() returns (cleanup: PttCleanupResult)
      requires Inv(world.s) && !world.s.dog.stopRequested
      modifies this, world
      ensures old(isActive) && !old(hasReleased) ==>
                && hasReleased
                && (isActive <==> cleanup.hasHazard)
                && cleanup.attempts <= policy.unkeyAttempts
                && Released(old(world.s), world.s)
                && world.s.safety.hasHazard == cleanup.hasHazard
                && (!cleanup.hasHazard && MonitorOf(world.s).keys > 0 ==> MonitorOf(world.s).danger.unkeyedAfterKey)
      ensures !old(isActive) ==>
                cleanup == PttCleanupResult(DefinitelyUnkeyed, 0, false) && world.s == old(world.s)
                && isActive == old(isActive) && hasReleased == old(hasReleased)
      ensures old(isActive) && old(hasReleased) ==>
                && Rely(old(world.s), world.s)
                && cleanup == PttCleanupResult(world.s.safety.certainty, 0, world.s.safety.hasHazard)
                && isActive == old(isActive) && hasReleased == old(hasReleased)
    {
      hide Watch;
      if !isActive {
        return PttCleanupResult(DefinitelyUnkeyed, 0, false);
      }
      if hasReleased {
        var t := world.Yield();
        return PttCleanupResult(world.s.safety.certainty, 0, world.s.safety.hasHazard);
      }
      var supervisor := new PttSupervisor(world);
      cleanup := supervisor.UnkeyWithRetries(policy);
      ghost var a := world.s;
      var t := world.Yield();
      RelyIsQuiet(a, world.s);
      QuietTransitive(old(world.s), a, world.s);
      RecordReleases(old(world.s), world.s, cleanup);
      world.s := RecordCleanup(world.s, RunThread, cleanup);
      hasReleased, isActive := true, cleanup.hasHazard;
    }
  }
}
