/** The state that the run thread shares with the watchdog worker, the cancelling
    thread, the clock and the audio device, and the atomic steps of everyone but the
    run thread. Atomics are sequentially consistent. */
module TransmitWorld {
  import opened Ptt
  import opened TransmitLog

  /** Program counter of PttWatchdog::run. `Checking` has loaded the expiry and is
      about to compare it with the clock; `Expiring` is about to publish the expiry. */
  datatype Worker =
    | Absent
    | AtHead
    | Sleeping(deadline: int)
    | Awake
    | Checking(loaded: int)
    | Expiring
    | UnkeyStarting(attempt: nat)
    | UnkeyCalling(attempt: nat, deadline: int)
    | Recording(cleanup: PttCleanupResult)
    | Disarming
    | Exited

  /** PttWatchdog: its atomics and its worker thread. */
  datatype Dog = Dog(
    worker: Worker,
    isArmed: bool,
    hasExpired: bool,
    lease: int,
    expiry: int,
    stopRequested: bool,
    policy: PttCleanupPolicy)

  datatype Shared = Shared(
    now: int,
    safety: PttSafetySnapshot,
    dog: Dog,
    cancelled: bool,
    shuttingDown: bool,
    log: seq<Event>)

  /** One atomic step of the environment. A worker step carries the reply the provider
      would give if the step turns out to be a provider call. */
  datatype EnvStep =
    | Tick(elapsed: nat)
    | Cancel
    | Shutdown
    | WorkerStep(reply: PttOperationResult)
    | Callback(frames: nat, hasOutput: bool)

  function Emit(s: Shared, e: Event): Shared {
    s.(log := s.log + [e])
  }

  function MonitorOf(s: Shared): Monitor {
    Watch(s.log)
  }

  /** PttSupervisor::execute as one action: the supervisor's mutex serialises calls. */
  function Execute(s: Shared, who: Actor, action: PttAction, attempt: nat, deadline: int, reply: PttOperationResult)
    : (Shared, PttOperationResult)
  {
    if deadline <= s.now || attempt == 0 then
      (Emit(s, Refused(who, action)), RefusedResult(action, s.now))
    else
      var result := Supervised(action, reply, deadline, s.now);
      (Emit(s, Provider(who, action, result)), result)
  }

  function RecordKeyAttempt(s: Shared): Shared {
    Emit(s.(safety := AfterKeyAttempt(s.safety)), KeyAttemptRecorded)
  }

  function RecordCleanup(s: Shared, who: Actor, cleanup: PttCleanupResult): Shared {
    Emit(s.(safety := AfterCleanup(s.safety, cleanup, who.Watchdog?)), CleanupRecorded(who, cleanup))
  }

  function AfterUnkeyAttempt(policy: PttCleanupPolicy, attempt: nat, result: PttOperationResult): Worker {
    if result.certainty.DefinitelyUnkeyed? then Recording(PttCleanupResult(DefinitelyUnkeyed, attempt, false))
    else if attempt < policy.unkeyAttempts then UnkeyStarting(attempt + 1)
    else Recording(PttCleanupResult(Indeterminate, attempt, true))
  }

  function SilentStep(d: Dog, now: int): Dog {
    match d.worker
    case AtHead =>
      if d.stopRequested then d.(worker := Exited)
      else if d.isArmed then d.(worker := Sleeping(d.expiry))
      else d
    case Sleeping(_) => d.(worker := Awake)
    case Awake => if d.stopRequested || !d.isArmed then d.(worker := AtHead) else d.(worker := Checking(d.expiry))
    case Checking(loaded) => if now < loaded then d.(worker := AtHead) else d.(worker := Expiring)
    case UnkeyStarting(attempt) => d.(worker := UnkeyCalling(attempt, now + d.policy.unkeyTimeout))
    case Disarming => d.(isArmed := false, worker := AtHead)
    case _ => d
  }

  function AfterExpiry(d: Dog): Dog {
    d.(hasExpired := true, worker := if d.policy.unkeyAttempts == 0 then Recording(UNCONFIRMED) else UnkeyStarting(1))
  }

  function StepWorker(s: Shared, reply: PttOperationResult): Shared {
    match s.dog.worker
    case Expiring => Emit(s.(dog := AfterExpiry(s.dog)), Expired)
    case UnkeyCalling(attempt, deadline) =>
      var (next, result) := Execute(s, Watchdog, Unkey, attempt, deadline, reply);
      next.(dog := s.dog.(worker := AfterUnkeyAttempt(s.dog.policy, attempt, result)))
    case Recording(cleanup) => RecordCleanup(s.(dog := s.dog.(worker := Disarming)), Watchdog, cleanup)
    case _ => s.(dog := SilentStep(s.dog, s.now))
  }

  function ApplyStep(s: Shared, step: EnvStep): Shared {
    match step
    case Tick(elapsed) => s.(now := s.now + elapsed)
    case Cancel => s.(cancelled := true)
    case Shutdown => s.(cancelled := true, shuttingDown := true)
    case WorkerStep(reply) => StepWorker(s, reply)
    case Callback(frames, hasOutput) => Emit(s, DeviceCallback(frames, hasOutput))
  }

  function Apply(s: Shared, steps: seq<EnvStep>): Shared
    decreases |steps|
  {
    if steps == [] then s else Apply(ApplyStep(s, steps[0]), steps[1..])
  }

  // ---------------------------------------------------------------- invariant

  predicate IsCleaning(w: Worker) {
    w.UnkeyStarting? || w.UnkeyCalling? || w.Recording? || w.Disarming?
  }

  /** The worker's program counter, its wake deadline and the sticky expiry flag agree. */
  predicate DogInv(d: Dog, now: int) {
    && (IsCleaning(d.worker) ==> d.hasExpired)
    && (d.worker.UnkeyStarting? || d.worker.UnkeyCalling? ==> 1 <= d.worker.attempt)
    && (d.worker.Sleeping? ==> d.worker.deadline <= d.expiry)
    && (d.worker.Checking? ==> d.worker.loaded <= d.expiry)
    && (d.worker.Exited? ==> d.stopRequested)
    && d.expiry <= now + d.lease
  }

  /** The watchdog holds an unrecorded confirmation exactly while it is about to record it. */
  predicate DangerInv(g: Danger, keyed: bool, w: Worker, hazard: bool) {
    && (g.watchdogConfirmed <==> w.Recording? && !w.cleanup.hasHazard)
    && (g.pendingStale ==> g.watchdogConfirmed && keyed)
    && (g.watchdogConfirmed && keyed ==> g.pendingStale || g.unkeyedAfterKey)
    && (g.lastStale ==> !hazard)
  }

  /** Holds in every reachable state, whatever thread moved last. */
  predicate Inv(s: Shared) {
    var m := MonitorOf(s);
    && DogInv(s.dog, s.now)
    && s.dog.hasExpired == m.danger.expired
    && DangerInv(m.danger, m.keys > 0, s.dog.worker, s.safety.hasHazard)
  }

  /** What the run thread owes at the end of a session with a key request. */
  predicate Accounted(s: Shared) {
    var m := MonitorOf(s);
    m.keys > 0 ==> m.danger.unkeyedAfterKey || s.safety.hasHazard || m.danger.lastStale
  }

  /** The environment moves only the danger part of the monitor, and only this way. */
  predicate EnvMonitor(a: Monitor, b: Monitor) {
    && b == a.(danger := b.danger)
    && (a.danger.expired ==> b.danger.expired)
    && (a.danger.unkeyedAfterKey ==> b.danger.unkeyedAfterKey)
  }

  predicate DogRely(a: Dog, b: Dog) {
    && b.lease == a.lease && b.expiry == a.expiry && b.stopRequested == a.stopRequested && b.policy == a.policy
    && (a.hasExpired ==> b.hasExpired)
    && (b.isArmed ==> a.isArmed)
    && (a.isArmed && !b.isArmed ==> b.hasExpired)
    && (a.worker.Absent? <==> b.worker.Absent?)
    && (a.worker.Absent? ==> b.hasExpired == a.hasExpired)
    && (!a.isArmed && (a.worker.AtHead? || a.worker.Exited?) ==>
          (b.worker.AtHead? || b.worker.Exited?) && b.hasExpired == a.hasExpired)
  }

  /** What any number of environment steps can do to the run thread's view. */
  predicate Rely(a: Shared, b: Shared) {
    && Inv(b)
    && a.now <= b.now
    && (a.cancelled ==> b.cancelled) && (a.shuttingDown ==> b.shuttingDown)
    && DogRely(a.dog, b.dog)
    && EnvMonitor(MonitorOf(a), MonitorOf(b))
    && (Accounted(a) ==> Accounted(b))
    && (!b.dog.hasExpired ==> b.safety == a.safety)
  }

  /** Something went wrong that was not the run thread's doing. */
  predicate Troubled(s: Shared) {
    MonitorOf(s).trouble != NO_TROUBLE || s.dog.hasExpired || s.cancelled || s.shuttingDown
  }

  /** The errors that a session under way can end with. */
  predicate IsFault(code: TransmitError) {
    !code.NoTransmitError? && !code.InvalidConfiguration? && !code.ConcurrentSession? && !code.UnresolvedPttHazard?
  }

  /** The session gave cause for reporting this fault. */
  predicate Grounds(s: Shared, code: TransmitError) {
    && IsFault(code)
    && (|| code in MonitorOf(s).trouble.causes
        || (code.CancelledByUser? && (s.cancelled || s.shuttingDown))
        || (code.WatchdogFailure? && s.dog.hasExpired))
  }

  /** An event outside the run thread moves the monitor only where EnvMonitor allows. */
  lemma EnvironmentEvent(log: seq<Event>, e: Event)
    requires IsEnvironment(e)
    ensures Watch(log + [e]) == Step(Watch(log), e)
    ensures EnvMonitor(Watch(log), Watch(log + [e]))
  {
    WatchAppend(log, e);
  }

  lemma ExpireRely(s: Shared, reply: PttOperationResult)
    requires Inv(s) && s.dog.worker.Expiring?
    ensures Rely(s, StepWorker(s, reply))
  {
    hide Watch;
    EnvironmentEvent(s.log, Expired);
  }

  lemma UnkeyConfirmedRely(s: Shared, result: PttOperationResult, attempt: nat)
    requires Inv(s) && s.dog.worker.UnkeyCalling? && result.certainty.DefinitelyUnkeyed?
    ensures Rely(s, Emit(s, Provider(Watchdog, Unkey, result)).(
                 dog := s.dog.(worker := Recording(PttCleanupResult(DefinitelyUnkeyed, attempt, false)))))
  {
    hide Watch;
    EnvironmentEvent(s.log, Provider(Watchdog, Unkey, result));
  }

  lemma UnkeyUnconfirmedRely(s: Shared, e: Event, w: Worker)
    requires Inv(s) && s.dog.worker.UnkeyCalling?
    requires e.Refused? || e.Provider?
    requires e.who.Watchdog? && e.action.Unkey?
    requires e.Provider? ==> !e.result.certainty.DefinitelyUnkeyed?
    requires IsCleaning(w) && !w.Disarming? && (w.Recording? ==> w.cleanup.hasHazard)
    requires w.UnkeyStarting? || w.UnkeyCalling? ==> 1 <= w.attempt
    ensures Rely(s, Emit(s, e).(dog := s.dog.(worker := w)))
  {
    hide Watch;
    EnvironmentEvent(s.log, e);
  }

  lemma UnkeyRely(s: Shared, reply: PttOperationResult)
    requires Inv(s) && s.dog.worker.UnkeyCalling?
    ensures Rely(s, StepWorker(s, reply))
  {
    hide Watch;
    var attempt := s.dog.worker.attempt;
    var result := Execute(s, Watchdog, Unkey, attempt, s.dog.worker.deadline, reply).1;
    var w := AfterUnkeyAttempt(s.dog.policy, attempt, result);
    if s.dog.worker.deadline <= s.now {
      UnkeyUnconfirmedRely(s, Refused(Watchdog, Unkey), w);
    } else if result.certainty.DefinitelyUnkeyed? {
      UnkeyConfirmedRely(s, result, attempt);
    } else {
      UnkeyUnconfirmedRely(s, Provider(Watchdog, Unkey, result), w);
    }
  }

  lemma RecordRely(s: Shared, reply: PttOperationResult)
    requires Inv(s) && s.dog.worker.Recording?
    ensures Rely(s, StepWorker(s, reply))
  {
    hide Watch;
    EnvironmentEvent(s.log, CleanupRecorded(Watchdog, s.dog.worker.cleanup));
  }

  lemma SilentDog(d: Dog, now: int)
    requires DogInv(d, now) && !d.worker.Expiring? && !d.worker.UnkeyCalling? && !d.worker.Recording?
    ensures DogInv(SilentStep(d, now), now) && DogRely(d, SilentStep(d, now))
    ensures SilentStep(d, now).hasExpired == d.hasExpired && !SilentStep(d, now).worker.Recording?
  {
  }

  lemma SilentWorkerRely(s: Shared, reply: PttOperationResult)
    requires Inv(s) && !s.dog.worker.Expiring? && !s.dog.worker.UnkeyCalling? && !s.dog.worker.Recording?
    ensures Rely(s, StepWorker(s, reply))
  {
    hide Watch;
    SilentDog(s.dog, s.now);
    hide SilentStep, DogInv, DogRely;
  }

  lemma StepWorkerRely(s: Shared, reply: PttOperationResult)
    requires Inv(s)
    ensures Rely(s, StepWorker(s, reply))
  {
    if s.dog.worker.Expiring? {
      ExpireRely(s, reply);
    } else if s.dog.worker.UnkeyCalling? {
      UnkeyRely(s, reply);
    } else if s.dog.worker.Recording? {
      RecordRely(s, reply);
    } else {
      SilentWorkerRely(s, reply);
    }
  }

  lemma ApplyStepRely(s: Shared, step: EnvStep)
    requires Inv(s)
    ensures Rely(s, ApplyStep(s, step))
  {
    hide Watch;
    if step.WorkerStep? {
      StepWorkerRely(s, step.reply);
    } else if step.Callback? {
      EnvironmentEvent(s.log, DeviceCallback(step.frames, step.hasOutput));
    }
  }

  lemma RelyTransitive(a: Shared, b: Shared, c: Shared)
    requires Rely(a, b) && Rely(b, c)
    ensures Rely(a, c)
  {
    hide Watch;
  }

  lemma {:induction false} ApplyRely(s: Shared, steps: seq<EnvStep>)
    requires Inv(s)
    ensures Rely(s, Apply(s, steps))
    decreases |steps|
  {
    hide Watch;
    if steps != [] {
      ApplyStepRely(s, steps[0]);
      ApplyRely(ApplyStep(s, steps[0]), steps[1..]);
      RelyTransitive(s, ApplyStep(s, steps[0]), Apply(s, steps));
    }
  }
}
