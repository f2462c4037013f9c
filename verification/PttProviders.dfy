/** The rigctld and flrig providers (src/rig/rigctld.cpp, src/rig/flrig.cpp): a set command
    is always followed by a readback, and certainty comes from the readback alone. */
module PttProviders {
  import opened Ptt
  import opened RigctldCodec

  datatype TransportError =
    | TransportOk | DeadlineExpired | ConnectionRefused | TransportClosed | MalformedReply | ReplyTooLarge
    | InvalidTransport | IoFailure

  /** What came back from one connection, and how much of the request went out. */
  datatype Reply = Reply(error: TransportError, response: string, bytesSent: nat)

  datatype Exchange = Exchange(request: PttAction, reply: Reply)

  /** What a set command's reply or a readback says once it is parsed. */
  datatype Answer = Acknowledged | State(state: PttObservedState) | Refused(error: PttError)

  function MapTransportError(e: TransportError): PttError {
    match e
    case TransportOk => NoError
    case DeadlineExpired => Timeout
    case ConnectionRefused => PttError.Disconnected
    case TransportClosed => PttError.Disconnected
    case MalformedReply => PttError.MalformedResponse
    case ReplyTooLarge => PttError.MalformedResponse
    case InvalidTransport => InvalidRequest
    case IoFailure => ProviderFailure
  }

  function MapResultCode(code: int): PttError {
    if code == -5 then Timeout else if code == -8 then ProtocolFault else Rejected
  }

  datatype FlrigReply = FlrigFault | FlrigMalformed | FlrigAcknowledged | FlrigState(isKeyed: bool)

  /** The two providers differ in how they read a reply and in what they count as sent. The
      XML of flrig is read by an arbitrary parser. */
  datatype Dialect = Rigctld(limits: Limits) | Flrig(decode: (PttAction, string) -> FlrigReply, length: PttAction -> nat)

  function ReadFlrig(action: PttAction, reply: FlrigReply): Answer {
    match reply
    case FlrigFault => Refused(ProtocolFault)
    case FlrigMalformed => Refused(PttError.MalformedResponse)
    case FlrigAcknowledged => if action.Query? then Refused(PttError.MalformedResponse) else Acknowledged
    case FlrigState(isKeyed) =>
      if !action.Query? then Refused(PttError.MalformedResponse) else State(if isKeyed then Keyed else Unkeyed)
  }

  function ReadRigctld(action: PttAction, result: ParseResult): Answer {
    match result
    case ParseFailed => Refused(PttError.MalformedResponse)
    case Parsed(r) =>
      if r.resultCode != 0 then Refused(MapResultCode(r.resultCode))
      else if action.Query? then State(r.state)
      else Acknowledged
  }

  /** A reply without transport error, read by the dialect. */
  function Read(d: Dialect, action: PttAction, response: string): Answer {
    match d
    case Flrig(decode, _) => ReadFlrig(action, decode(action, response))
    case Rigctld(limits) => ReadRigctld(action, Parse(response, action, limits))
  }

  function AnswerOf(d: Dialect, e: Exchange): Answer {
    if e.reply.error.TransportOk? then Read(d, e.request, e.reply.response) else Refused(MapTransportError(e.reply.error))
  }

  /** The readback that makes a certainty. */
  function CertaintyOf(state: PttObservedState): PttCertainty {
    if state.Keyed? then DefinitelyKeyed else DefinitelyUnkeyed
  }

  function CommandLength(d: Dialect, action: PttAction): nat {
    match d
    case Rigctld(_) => |BuildCommand(action)|
    case Flrig(_, length) => length(action)
  }

  /** rigctld ignores an incomplete command line; flrig may act on any part of a request. */
  predicate MayHaveActed(d: Dialect, action: PttAction, bytesSent: nat) {
    match d
    case Rigctld(_) => bytesSent == CommandLength(d, action)
    case Flrig(_, _) => bytesSent > 0
  }

  /** Neither dialect refuses without an error or reads back an unknown state. */
  lemma AnswersAreDefinite(d: Dialect, e: Exchange)
    ensures AnswerOf(d, e).Refused? ==> !AnswerOf(d, e).error.NoError?
    ensures AnswerOf(d, e).State? ==> e.request.Query? && !AnswerOf(d, e).state.Unknown?
    ensures AnswerOf(d, e).Acknowledged? ==> !e.request.Query?
  {
    hide Inspect, IntegerAfter;
  }

  /** Refused before anything that could matter was sent: no readback is attempted. */
  predicate NothingSent(d: Dialect, action: PttAction, sent: Reply) {
    sent.bytesSent == 0 && (d.Rigctld? ==> action.Key?)
  }

  class PttProvider {
    const dialect: Dialect
    const replies: nat -> Reply
    const ticks: nat -> nat
    var now: int
    var calls: nat
    var log: seq<Exchange>

    constructor (dialect: Dialect, replies: nat -> Reply, ticks: nat -> nat, now: int)
      ensures this.dialect == dialect && this.replies == replies && this.ticks == ticks && log == []
    {
      this.dialect, this.replies, this.ticks, this.now, calls, log := dialect, replies, ticks, now, 0, [];
    }

    /** Reads the clock. */
    method Now() returns (time: int)
      modifies this`now, this`calls
      ensures time == now && old(now) <= now
    {
      now, calls := now + ticks(calls), calls + 1;
      time := now;
    }

    method Send(action: PttAction) returns (reply: Reply)
      modifies this`now, this`calls, this`log
      ensures log == old(log) + [Exchange(action, reply)]
    {
      var time := Now();
      reply := replies(calls);
      calls := calls + 1;
      log := log + [Exchange(action, reply)];
    }

    method ExecuteQuery() returns (result: PttOperationResult, ghost readback: Exchange)
      modifies this
      ensures log == old(log) + [readback] && readback.request == Query
      ensures result.mayHaveKeyed == false
      ensures match AnswerOf(dialect, readback) {
                case State(state) =>
                  result.observed == state && result.certainty == CertaintyOf(state) && result.error.NoError?
                case Refused(error) =>
                  result.observed.Unknown? && result.certainty.Indeterminate? && result.error == error
                case Acknowledged => false
              }
    {
      hide Read;
      result := PttOperationResult(Unknown, Indeterminate, NoError, false, 0);
      var reply := Send(Query);
      readback := Exchange(Query, reply);
      AnswersAreDefinite(dialect, readback);
      if !reply.error.TransportOk? {
        result := result.(error := MapTransportError(reply.error));
      } else {
        var answer := Read(dialect, Query, reply.response);
        if answer.Refused? {
          result := result.(error := answer.error);
        } else {
          result := result.(observed := answer.state, certainty := CertaintyOf(answer.state));
        }
      }
      var time := Now();
      result := result.(completed := time);
    }

    /** The set command's own result. */
    method SendSet(action: PttAction) returns (sent: Reply, setError: PttError)
      requires !action.Query?
      modifies this
      ensures log == old(log) + [Exchange(action, sent)]
      ensures setError.NoError? <==> AnswerOf(dialect, Exchange(action, sent)).Acknowledged?
    {
      hide Read;
      sent := Send(action);
      AnswersAreDefinite(dialect, Exchange(action, sent));
      setError := NoError;
      if !sent.error.TransportOk? {
        setError := MapTransportError(sent.error);
      } else {
        var answer := Read(dialect, action, sent.response);
        if answer.Refused? {
          setError := answer.error;
        }
      }
    }

    method ExecuteSet(action: PttAction, deadline: int)
      returns (result: PttOperationResult, ghost command: Exchange, ghost readback: seq<Exchange>)
      requires !action.Query?
      modifies this
      ensures log == old(log) + [command] + readback && command.request == action
      ensures |readback| <= 1 && (readback != [] ==> readback[0].request == Query)
      // certainty comes from a readback after the command, and agrees with it
      ensures !result.certainty.Indeterminate? ==>
                && readback != [] && AnswerOf(dialect, readback[0]) == State(result.observed)
                && result.certainty == CertaintyOf(result.observed)
      // an error-free and certain result needs an acknowledgement and a matching readback
      ensures result.error.NoError? && !result.certainty.Indeterminate? <==>
                && AnswerOf(dialect, command).Acknowledged? && readback != []
                && AnswerOf(dialect, readback[0]) == State(if action.Key? then Keyed else Unkeyed)
      ensures result.mayHaveKeyed <==> action.Key? && MayHaveActed(dialect, action, command.reply.bytesSent)
    {
      hide AnswerOf;
      readback := [];
      var sent, setError := SendSet(action);
      command := Exchange(action, sent);
      result := PttOperationResult(Unknown, Indeterminate, NoError,
                                   action.Key? && MayHaveActed(dialect, action, sent.bytesSent), 0);
      var time := Now();
      if time >= deadline || (NothingSent(dialect, action, sent) && !setError.NoError?) {
        time := Now();
        result := result.(error := setError, completed := time);
        return;
      }
      var query, answer := ExecuteQuery();
      readback := [answer];
      AnswersAreDefinite(dialect, answer);
      result := result.(observed := query.observed, certainty := query.certainty, completed := query.completed);
      if !query.error.NoError? {
        result := result.(error := if setError.NoError? then query.error else setError);
        return;
      }
      if query.observed != (if action.Key? then Keyed else Unkeyed) {
        result := result.(error := Rejected);
        return;
      }
      result := result.(error := setError);
    }

    method Execute(action: PttAction, deadline: int) returns (result: PttOperationResult, ghost exchanges: seq<Exchange>)
      modifies this
      ensures log == old(log) + exchanges && |exchanges| <= 2
      ensures !result.certainty.Indeterminate? ==>
                && exchanges != [] && exchanges[|exchanges| - 1].request == Query
                && AnswerOf(dialect, exchanges[|exchanges| - 1]) == State(result.observed)
                && result.certainty == CertaintyOf(result.observed)
      // a key request is accepted only after an acknowledged command and a keyed readback
      ensures action.Key? && IsKeyed(result) ==>
                && |exchanges| == 2 && exchanges[0].request == Key
                && AnswerOf(dialect, exchanges[0]).Acknowledged? && AnswerOf(dialect, exchanges[1]) == State(Keyed)
      // what is reported as certainly not keyed was never acted upon
      ensures action.Key? && !result.mayHaveKeyed ==> NeverActedUpon(dialect, exchanges)
    {
      hide AnswerOf;
      exchanges := [];
      var started := Now();
      if started >= deadline {
        result := PttOperationResult(Unknown, Indeterminate, Timeout, false, started);
        return;
      }
      if action.Query? {
        ghost var answer;
        result, answer := ExecuteQuery();
        exchanges := [answer];
        AnswersAreDefinite(dialect, answer);
      } else {
        ghost var command, readback;
        result, command, readback := ExecuteSet(action, deadline);
        exchanges := [command] + readback;
        assert old(log) + [command] + readback == old(log) + exchanges;
      }
    }
  }

  /** No set command among them reached the radio in a form that it may act upon. */
  predicate NeverActedUpon(d: Dialect, exchanges: seq<Exchange>) {
    forall i :: 0 <= i < |exchanges| ==>
                  exchanges[i].request.Query? || !MayHaveActed(d, exchanges[i].request, exchanges[i].reply.bytesSent)
  }

  // ------------------------------------------------------------------------ the radio

  /** The radio's state after each exchange. It may change it on a set command that it may
      have acted upon, and then only to the commanded state; a query changes nothing. */
  predicate RadioObeys(d: Dialect, exchanges: seq<Exchange>, keyed: seq<bool>) {
    && |keyed| == |exchanges| + 1
    && forall i :: 0 <= i < |exchanges| ==>
                     || keyed[i + 1] == keyed[i]
                     || (MayHaveActed(d, exchanges[i].request, exchanges[i].reply.bytesSent)
                         && !exchanges[i].request.Query? && keyed[i + 1] == exchanges[i].request.Key?)
  }

  /** A key request whose result says that the radio cannot have been keyed has not changed
      the radio: giving the lease up without an unkey is sound. */
  lemma {:induction false} NothingActedUpon(d: Dialect, exchanges: seq<Exchange>, keyed: seq<bool>)
    requires RadioObeys(d, exchanges, keyed)
    requires NeverActedUpon(d, exchanges)
    ensures forall i :: 0 <= i < |keyed| ==> keyed[i] == keyed[0]
    decreases |exchanges|
  {
    if exchanges != [] {
      var n := |exchanges| - 1;
      NothingActedUpon(d, exchanges[..n], keyed[..n + 1]);
      assert keyed[..n + 1][n] == keyed[n];
      forall i | 0 <= i < |keyed| ensures keyed[i] == keyed[0] {
        if i <= n {
          assert keyed[i] == keyed[..n + 1][i];
        }
      }
    }
  }
}
