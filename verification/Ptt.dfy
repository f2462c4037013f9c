/** Value types of the PTT layer (include/sstv/rig/ptt.hpp) and the supervisor's
    treatment of one provider reply. Times are nanoseconds of the monotonic clock. */
module Ptt {

  datatype PttAction = Key | Unkey | Query

  datatype PttObservedState = Keyed | Unkeyed | Unknown

  datatype PttCertainty = DefinitelyKeyed | DefinitelyUnkeyed | Indeterminate

  datatype PttError =
    | NoError
    | Rejected
    | Timeout
    | Disconnected
    | ProtocolFault
    | MalformedResponse
    | ProviderFailure
    | InvalidRequest

  datatype PttOperationResult = PttOperationResult(
    observed: PttObservedState,
    certainty: PttCertainty,
    error: PttError,
    mayHaveKeyed: bool,
    completed: int)

  datatype PttCleanupPolicy = PttCleanupPolicy(unkeyTimeout: nat, unkeyAttempts: nat, retryDelay: nat)

  datatype PttCleanupResult = PttCleanupResult(certainty: PttCertainty, attempts: nat, hasHazard: bool)

  datatype PttSafetySnapshot = PttSafetySnapshot(
    certainty: PttCertainty,
    unkeyAttempts: nat,
    hasHazard: bool,
    watchdogExpired: bool)

  const SAFE_AT_START := PttSafetySnapshot(DefinitelyUnkeyed, 0, false, false)

  /** What an unkey loop reports when no attempt was confirmed. */
  const UNCONFIRMED := PttCleanupResult(Indeterminate, 0, true)

  /** The result of a request the supervisor never passes to the provider. */
  function RefusedResult(action: PttAction, now: int): PttOperationResult {
    PttOperationResult(Unknown, Indeterminate, InvalidRequest, action.Key?, now)
  }

  /** The provider's reply after the supervisor filled in a missing completion time
      and withdrew the certainty of an error-free reply that came too late. */
  function Supervised(action: PttAction, reply: PttOperationResult, deadline: int, now: int): PttOperationResult {
    var timed := if reply.completed == 0 then reply.(completed := now) else reply;
    if timed.completed > deadline && timed.error.NoError? then
      timed.(error := Timeout, certainty := Indeterminate, mayHaveKeyed := action.Key?)
    else timed
  }

  /** The coordinator accepts a key result only when it is error-free and certain. */
  predicate IsKeyed(r: PttOperationResult) {
    r.error.NoError? && r.certainty.DefinitelyKeyed?
  }

  predicate IsConfirmedUnkeyed(r: PttOperationResult) {
    r.error.NoError? && r.certainty.DefinitelyUnkeyed? && r.observed.Unkeyed?
  }

  function AfterKeyAttempt(s: PttSafetySnapshot): PttSafetySnapshot {
    s.(certainty := Indeterminate, hasHazard := true)
  }

  function AfterCleanup(s: PttSafetySnapshot, r: PttCleanupResult, expired: bool): PttSafetySnapshot {
    PttSafetySnapshot(r.certainty, s.unkeyAttempts + r.attempts, r.hasHazard, s.watchdogExpired || expired)
  }
}
