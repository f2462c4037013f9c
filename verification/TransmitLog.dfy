/** The observable actions of one transmit session and the monitor that says which
    orders of actions are acceptable. The monitor knows nothing of the code that
    produces the log; every claim about a session is a claim about its log. */
module TransmitLog {
  import opened Ptt

  type Sample = real

  datatype Actor = RunThread | Watchdog

  datatype AudioFault = NoFault | Underrun | Disconnected | DeviceRemoved | AdapterFailure

  datatype AudioStatus = AudioStatus(fault: AudioFault, isDrained: bool)

  datatype TransmitError =
    | NoTransmitError | InvalidConfiguration | ConcurrentSession | UnresolvedPttHazard | AudioFailure
    | WatchdogFailure | KeyFailure | SourceFailure | UnderrunFault | DisconnectFault | DrainTimeout
    | CancelledByUser | CleanupFailure

  function AudioFaultCode(fault: AudioFault): TransmitError {
    match fault
    case Underrun => UnderrunFault
    case Disconnected => DisconnectFault
    case DeviceRemoved => DisconnectFault
    case _ => AudioFailure
  }

  datatype Event =
    | Refused(who: Actor, action: PttAction)
    | Provider(who: Actor, action: PttAction, result: PttOperationResult)
    | KeyAttemptRecorded
    | CleanupRecorded(who: Actor, cleanup: PttCleanupResult)
    | Opened(ok: bool)
    | Prefilled(frames: nat, ok: bool)
    | Primed(ok: bool)
    | Started(ok: bool)
    | WatchdogMissing
    | Armed(ok: bool)
    | Beat(ok: bool, at: int)
    | SourceFailed
    | Expired
    | Queued(offered: seq<Sample>, accepted: nat)
    | SignalFinished
    | DrainTimedOut
    | TailBegun(at: int, duration: int)
    | TailEnded(at: int)
    | Gated
    | StatusRead(status: AudioStatus)
    | StopRequested(ok: bool)
    | Stopped(ok: bool)
    | Closed(ok: bool)
    | DeviceCallback(frames: nat, hasOutput: bool)

  /** Steps completed on the way to the key request. */
  datatype Setup = Setup(
    confirmed: bool,          // PTT was confirmed unkeyed
    opens: nat,               // attempts to open audio
    audioOpen: bool, prefilled: bool, primed: bool, started: bool, armed: bool)

  datatype Signal = Signal(
    queued: seq<Sample>,      // signal accepted by the endpoint so far
    gated: bool,              // the signal gate was closed, as every fault does
    finished: bool,           // end of signal announced
    cleanAfterFinish: bool,   // a fault-free status was read after that
    drained: bool)            // the endpoint reported itself drained after that

  datatype Teardown = Teardown(
    released: bool,           // the run thread recorded its cleanup after the key request
    stopRequests: nat, stops: nat, closes: nat)

  /** The part of the monitor that the watchdog worker can move. */
  datatype Danger = Danger(
    expired: bool,            // the watchdog expired
    unkeyedAfterKey: bool,    // a definitely-unkeyed reply was obtained no earlier than the key request
    watchdogConfirmed: bool,  // the watchdog obtained a definite unkey it has not recorded yet
    pendingStale: bool,       // ... and the key request came in between
    lastStale: bool)          // the last safety record is such an outdated one

  /** The post-audio tail. */
  datatype Tail = Tail(
    begun: bool, begunAt: int, duration: int,
    ended: bool, endedAt: int,
    cut: bool)                // a heartbeat failed before the duration had passed

  /** What others answered or failed to do that explains a session without success. The
      causes name the fault that the coordinator reports for each. */
  datatype Trouble = Trouble(
    fault: AudioFault,        // the last fault that the endpoint reported
    overReported: bool,       // the endpoint claimed to have taken more frames than it was offered
    causes: set<TransmitError>)   // the faults that the steps of the session gave cause for

  datatype Monitor = Monitor(
    bad: bool,                // a forbidden action has happened
    setup: Setup,
    keys: nat,                // key requests
    keyOk: bool,              // the key request was answered error-free and definitely keyed
    signal: Signal,
    lateFrames: nat,          // signal frames accepted after the watchdog expired
    teardown: Teardown,
    tail: Tail,
    trouble: Trouble,
    danger: Danger)

  const NO_TAIL := Tail(false, 0, 0, false, 0, false)
  const NO_TROUBLE := Trouble(NoFault, false, {})

  const FRESH := Monitor(false, Setup(false, 0, false, false, false, false, false), 0, false,
                         Signal([], false, false, false, false), 0, Teardown(false, 0, 0, 0),
                         NO_TAIL, NO_TROUBLE, Danger(false, false, false, false, false))

  /** The trouble after a step that may have failed. */
  function Failing(t: Trouble, ok: bool, cause: TransmitError): Trouble {
    if ok then t else t.(causes := t.causes + {cause})
  }

  /** A heartbeat that fails is a watchdog failure, but one in the pre-key delay is reported
      as a cancellation. */
  function Beating(t: Trouble, ok: bool): Trouble {
    if ok then t else t.(causes := t.causes + {WatchdogFailure, CancelledByUser})
  }

  /** Everything that must hold before a key request. */
  predicate MayKey(m: Monitor) {
    && m.keys == 0 && !m.signal.gated
    && m.setup.confirmed && m.setup.audioOpen && m.setup.prefilled && m.setup.primed && m.setup.started
    && m.setup.armed
  }

  /** Everything that must hold before signal is offered to the audio endpoint. */
  predicate MayQueue(m: Monitor) {
    m.keys == 1 && m.keyOk && !m.signal.gated && !m.signal.finished && m.teardown == Teardown(false, 0, 0, 0)
  }

  function DangerOnKey(d: Danger, unkeyed: bool): Danger {
    d.(unkeyedAfterKey := d.unkeyedAfterKey || unkeyed, pendingStale := d.watchdogConfirmed)
  }

  function OnKey(m: Monitor, keyed: bool, unkeyed: bool): (n: Monitor)
    ensures (m.bad ==> n.bad) && n.setup == m.setup && n.signal == m.signal && n.lateFrames == m.lateFrames
    ensures n.teardown == m.teardown && n.tail == m.tail
    ensures n.danger.expired == m.danger.expired
  {
    m.(bad := m.bad || !MayKey(m), keys := m.keys + 1, keyOk := keyed, trouble := Failing(m.trouble, keyed, KeyFailure),
    danger := DangerOnKey(m.danger, unkeyed))
  }

  function OnUnkeyConfirmed(m: Monitor, who: Actor): (n: Monitor)
    ensures n.bad == m.bad && n.keys == m.keys && n.keyOk == m.keyOk && n.signal == m.signal
    ensures n.lateFrames == m.lateFrames && n.teardown == m.teardown && n.tail == m.tail
    ensures n.trouble == m.trouble
    ensures n.danger.expired == m.danger.expired
  {
    var d := m.danger.(unkeyedAfterKey := m.danger.unkeyedAfterKey || m.keys > 0);
    if who.Watchdog? then m.(danger := d.(watchdogConfirmed := true))
    else m.(danger := d, setup := m.setup.(confirmed := true))
  }

  function OnQueried(m: Monitor, confirmed: bool): (n: Monitor)
    ensures n.bad == m.bad && n.keys == m.keys && n.keyOk == m.keyOk && n.signal == m.signal
    ensures n.lateFrames == m.lateFrames && n.teardown == m.teardown && n.tail == m.tail
    ensures n.trouble == m.trouble && n.danger == m.danger
  {
    m.(setup := m.setup.(confirmed := m.setup.confirmed || confirmed))
  }

  function OnProvider(m: Monitor, who: Actor, action: PttAction, r: PttOperationResult): (n: Monitor)
    ensures n.danger.expired == m.danger.expired
  {
    if action.Key? then OnKey(m, IsKeyed(r), r.certainty.DefinitelyUnkeyed?)
    else if action.Unkey? then
      if r.certainty.DefinitelyUnkeyed? then OnUnkeyConfirmed(m, who) else m
    else OnQueried(m, IsConfirmedUnkeyed(r))
  }

  function OnCleanupRecorded(m: Monitor, who: Actor, hazard: bool): (n: Monitor)
    ensures n.bad == m.bad && n.setup == m.setup && n.keys == m.keys && n.keyOk == m.keyOk
    ensures n.signal == m.signal && n.lateFrames == m.lateFrames && n.tail == m.tail
    ensures n.danger.expired == m.danger.expired
  {
    if who.RunThread? then
      m.(danger := m.danger.(lastStale := false), trouble := Failing(m.trouble, !hazard, CleanupFailure),
      teardown := m.teardown.(released := m.teardown.released || m.keys > 0))
    else
      m.(danger := m.danger.(lastStale := m.danger.pendingStale, watchdogConfirmed := false, pendingStale := false))
  }

  function OnSetup(m: Monitor, allowed: bool, ok: bool, cause: TransmitError, after: Setup): (n: Monitor)
    ensures (m.bad ==> n.bad) && n.keys == m.keys && n.keyOk == m.keyOk && n.signal == m.signal
    ensures n.lateFrames == m.lateFrames && n.teardown == m.teardown && n.tail == m.tail
    ensures n.danger == m.danger
    ensures n.trouble == Failing(m.trouble, ok, cause)
  {
    m.(bad := m.bad || !allowed, setup := after, trouble := Failing(m.trouble, ok, cause))
  }

  function OnQueued(m: Monitor, offered: seq<Sample>, accepted: nat): (n: Monitor)
    ensures (m.bad ==> n.bad) && n.setup == m.setup && n.keys == m.keys && n.keyOk == m.keyOk
    ensures n.teardown == m.teardown && n.tail == m.tail && n.danger == m.danger
  {
    var n := if accepted <= |offered| then accepted else 0;
    m.(bad := m.bad || !MayQueue(m),
    signal := m.signal.(queued := m.signal.queued + offered[..n]),
    lateFrames := m.lateFrames + (if m.danger.expired then n else 0),
    trouble := if accepted <= |offered| then m.trouble
               else m.trouble.(overReported := true, causes := m.trouble.causes + {AudioFailure}))
  }

  function OnFinished(m: Monitor): (n: Monitor)
    ensures (m.bad ==> n.bad) && n.setup == m.setup && n.keys == m.keys && n.keyOk == m.keyOk
    ensures n.lateFrames == m.lateFrames && n.teardown == m.teardown && n.tail == m.tail
    ensures n.trouble == m.trouble && n.danger == m.danger
  {
    m.(bad := m.bad || !MayQueue(m), signal := m.signal.(finished := true))
  }

  function OnStatus(m: Monitor, status: AudioStatus): (n: Monitor)
    ensures n.bad == m.bad && n.setup == m.setup && n.keys == m.keys && n.keyOk == m.keyOk
    ensures n.lateFrames == m.lateFrames && n.teardown == m.teardown && n.tail == m.tail
    ensures n.danger == m.danger
  {
    m.(signal := m.signal.(cleanAfterFinish := m.signal.cleanAfterFinish || (m.signal.finished && status.fault.NoFault?),
       drained := m.signal.drained || (m.signal.finished && !m.signal.gated && status.isDrained)),
    trouble := if status.fault.NoFault? then m.trouble
               else m.trouble.(fault := status.fault, causes := m.trouble.causes + {AudioFaultCode(status.fault)}))
  }

  function OnTeardown(m: Monitor, allowed: bool, ok: bool, after: Teardown): (n: Monitor)
    ensures (m.bad ==> n.bad) && n.setup == m.setup && n.keys == m.keys && n.keyOk == m.keyOk
    ensures n.signal == m.signal && n.lateFrames == m.lateFrames && n.tail == m.tail && n.danger == m.danger
    ensures n.trouble == Failing(m.trouble, ok, CleanupFailure)
  {
    m.(bad := m.bad || !allowed, teardown := after, trouble := Failing(m.trouble, ok, CleanupFailure))
  }

  function OnFailure(m: Monitor, cause: TransmitError): (n: Monitor)
    ensures n.bad == m.bad && n.setup == m.setup && n.keys == m.keys && n.keyOk == m.keyOk
    ensures n.signal == m.signal && n.lateFrames == m.lateFrames && n.teardown == m.teardown
    ensures n.tail == m.tail && n.danger == m.danger
    ensures n.trouble == Failing(m.trouble, false, cause)
  {
    m.(trouble := Failing(m.trouble, false, cause))
  }

  function OnBeat(m: Monitor, ok: bool, at: int): (n: Monitor)
    ensures n.bad == m.bad && n.setup == m.setup && n.keys == m.keys && n.keyOk == m.keyOk
    ensures n.signal == m.signal && n.lateFrames == m.lateFrames && n.teardown == m.teardown
    ensures n.danger == m.danger
    ensures n.trouble == Beating(m.trouble, ok)
  {
    m.(trouble := Beating(m.trouble, ok),
    tail := m.tail.(cut := m.tail.cut || (!ok && m.tail.begun && !m.tail.ended && at < m.tail.begunAt + m.tail.duration)))
  }

  function OnTailBegun(m: Monitor, at: int, duration: int): (n: Monitor)
    ensures (m.bad ==> n.bad) && n.setup == m.setup && n.keys == m.keys && n.keyOk == m.keyOk
    ensures n.signal == m.signal && n.lateFrames == m.lateFrames && n.teardown == m.teardown
    ensures n.trouble == m.trouble && n.danger == m.danger
  {
    m.(bad := m.bad || m.tail.begun || !m.signal.drained || m.teardown.released,
    tail := Tail(true, at, duration, false, 0, false))
  }

  function OnTailEnded(m: Monitor, at: int): (n: Monitor)
    ensures (m.bad ==> n.bad) && n.setup == m.setup && n.keys == m.keys && n.keyOk == m.keyOk
    ensures n.signal == m.signal && n.lateFrames == m.lateFrames && n.teardown == m.teardown
    ensures n.trouble == m.trouble && n.danger == m.danger
  {
    m.(bad := m.bad || !m.tail.begun || m.tail.ended || m.teardown.released,
    tail := m.tail.(ended := true, endedAt := at))
  }

  function Step(m: Monitor, e: Event): Monitor {
    match e
    case Refused(who, action) => if action.Key? then OnKey(m, false, false) else m
    case Provider(who, action, result) => OnProvider(m, who, action, result)
    case KeyAttemptRecorded => m.(danger := m.danger.(lastStale := false))
    case CleanupRecorded(who, cleanup) => OnCleanupRecorded(m, who, cleanup.hasHazard)
    case Opened(ok) =>
      OnSetup(m, m.setup.confirmed && m.setup.opens == 0 && m.keys == 0, ok, AudioFailure,
              m.setup.(opens := m.setup.opens + 1, audioOpen := ok))
    case Prefilled(frames, ok) => OnSetup(m, m.setup.audioOpen && m.keys == 0, ok, AudioFailure, m.setup.(prefilled := ok))
    case Primed(ok) => OnSetup(m, m.setup.prefilled, ok, AudioFailure, m.setup.(primed := ok))
    case Started(ok) => OnSetup(m, m.setup.primed, ok, AudioFailure, m.setup.(started := ok))
    case Armed(ok) => OnSetup(m, m.setup.started && m.keys == 0, ok, WatchdogFailure, m.setup.(armed := ok))
    case WatchdogMissing => OnFailure(m, WatchdogFailure)
    case Beat(ok, at) => OnBeat(m, ok, at)
    case SourceFailed => OnFailure(m, SourceFailure)
    case DrainTimedOut => OnFailure(m, DrainTimeout)
    case TailBegun(at, duration) => OnTailBegun(m, at, duration)
    case TailEnded(at) => OnTailEnded(m, at)
    case Expired => m.(danger := m.danger.(expired := true))
    case Queued(offered, accepted) => OnQueued(m, offered, accepted)
    case SignalFinished => OnFinished(m)
    case Gated => m.(signal := m.signal.(gated := true))
    case StatusRead(status) => OnStatus(m, status)
    case StopRequested(ok) =>
      OnTeardown(m, m.setup.audioOpen && m.teardown.stopRequests == 0 && (m.keys > 0 ==> m.teardown.released), ok,
                 m.teardown.(stopRequests := m.teardown.stopRequests + 1))
    case Stopped(ok) =>
      OnTeardown(m, m.teardown.stopRequests == 1 && m.teardown.stops == 0, ok,
                 m.teardown.(stops := m.teardown.stops + 1))
    case Closed(ok) =>
      OnTeardown(m, m.teardown.stops == 1 && m.teardown.closes == 0, ok,
                 m.teardown.(closes := m.teardown.closes + 1))
    case DeviceCallback(frames, hasOutput) => m
  }

  /** The monitor after a whole log. */
  function Watch(log: seq<Event>): Monitor {
    if log == [] then FRESH else Step(Watch(log[..|log| - 1]), log[|log| - 1])
  }

  lemma WatchAppend(log: seq<Event>, e: Event)
    ensures Watch(log + [e]) == Step(Watch(log), e)
  {
    assert (log + [e])[..|log|] == log;
  }

  lemma WatchLast(log: seq<Event>)
    requires log != []
    ensures Watch(log) == Step(Watch(log[..|log| - 1]), log[|log| - 1])
  {
  }

  lemma WatchNothing()
    ensures Watch([]) == FRESH
  {
  }

  /** The step of one kind of event, for proofs that need no other. */
  lemma StatusStep(m: Monitor, status: AudioStatus)
    ensures Step(m, StatusRead(status)) == OnStatus(m, status)
  {
  }

  lemma QueuedStep(m: Monitor, offered: seq<Sample>, accepted: nat)
    ensures Step(m, Queued(offered, accepted)) == OnQueued(m, offered, accepted)
  {
  }

  lemma FailureStep(m: Monitor, e: Event)
    requires e.WatchdogMissing? || e.SourceFailed? || e.DrainTimedOut?
    ensures Step(m, e) ==
            OnFailure(m, if e.WatchdogMissing? then WatchdogFailure else if e.SourceFailed? then SourceFailure else DrainTimeout)
  {
  }

  lemma TailSteps(m: Monitor, at: int, duration: int)
    ensures Step(m, TailBegun(at, duration)) == OnTailBegun(m, at, duration)
    ensures Step(m, TailEnded(at)) == OnTailEnded(m, at)
  {
  }

  lemma TeardownStep(m: Monitor, ok: bool)
    ensures Step(m, StopRequested(ok)) ==
            OnTeardown(m, m.setup.audioOpen && m.teardown.stopRequests == 0 && (m.keys > 0 ==> m.teardown.released), ok,
                       m.teardown.(stopRequests := m.teardown.stopRequests + 1))
    ensures Step(m, Stopped(ok)) ==
            OnTeardown(m, m.teardown.stopRequests == 1 && m.teardown.stops == 0, ok, m.teardown.(stops := m.teardown.stops + 1))
    ensures Step(m, Closed(ok)) ==
            OnTeardown(m, m.teardown.stops == 1 && m.teardown.closes == 0, ok, m.teardown.(closes := m.teardown.closes + 1))
  {
  }

  lemma PrimedStep(m: Monitor, ok: bool)
    ensures Step(m, Primed(ok)) == OnSetup(m, m.setup.prefilled, ok, AudioFailure, m.setup.(primed := ok))
    ensures Step(m, Started(ok)) == OnSetup(m, m.setup.primed, ok, AudioFailure, m.setup.(started := ok))
  {
  }

  /** Actions that do not belong to the run thread. */
  predicate IsEnvironment(e: Event) {
    match e
    case Refused(who, action) => who.Watchdog? && action.Unkey?
    case Provider(who, action, result) => who.Watchdog? && action.Unkey?
    case CleanupRecorded(who, cleanup) => who.Watchdog?
    case Expired => true
    case DeviceCallback(_, _) => true
    case _ => false
  }
}
