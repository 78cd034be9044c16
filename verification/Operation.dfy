/** Client operations: what a reply from the server makes of an operation, and when its callback is called. */
module Operations {
  import opened Wrappers

  /** An operation object; `id` names it. */
  datatype Operation = Operation(id: nat, completed: bool, responded: bool, wasCommitTimeout: bool)

  function NewOperation(id: nat): Operation { Operation(id, false, false, false) }

  datatype Outcome = Succeeded | Failed(reason: string)

  /** One call of an operation's callback. */
  datatype Callback = Callback(op: nat, outcome: Outcome)

  datatype EndPoint = EndPoint(host: Option<string>, port: Option<int>)

  datatype Decision =
    | DoNothing
    | EndOperation
    | Retry
    | Reconnect(tcpEndPoint: Option<EndPoint>, secureTcpEndPoint: Option<EndPoint>)
    | Subscribed

  datatype OperationResult =
    | Success | PrepareTimeout | CommitTimeout | ForwardTimeout | WrongExpectedVersion | StreamDeleted
    | InvalidTransaction | AccessDenied | UnknownResult

  datatype MasterInfo = MasterInfo(tcp: EndPoint, secureTcp: EndPoint)

  datatype NotHandledReason = NotReady | TooBusy | NotMaster(info: Option<MasterInfo>) | UnknownReason

  /** A package as an operation sees it; absent parts are those that fail to decode. */
  datatype Reply =
    | Response(result: Option<OperationResult>, transforms: bool)
    | NotAuthenticated
    | BadRequest
    | NotHandled(reason: Option<NotHandledReason>)
    | OtherCommand

  datatype Inspected = Inspected(operation: Operation, decision: Decision, calls: seq<Callback>)

  function Fail(op: Operation, calls: seq<Callback>, reason: string): Inspected {
    Inspected(op.(completed := true), EndOperation, calls + [Callback(op.id, Failed(reason))])
  }

  /** The result of an append, mapped to a decision; a success whose result cannot be built fails instead. */
  function InspectResponse(op: Operation, result: OperationResult, transforms: bool): Inspected {
    match result
    case Success =>
      if op.completed then Inspected(op, EndOperation, [])
      else if !transforms then Fail(op, [], "Error")
      else Inspected(op.(completed := true), EndOperation, [Callback(op.id, Succeeded)])
    case PrepareTimeout => Inspected(op, Retry, [])
    case ForwardTimeout => Inspected(op, Retry, [])
    case CommitTimeout => Inspected(op.(wasCommitTimeout := true), Retry, [])
    case WrongExpectedVersion => Fail(op, [], "WrongExpectedVersion")
    case StreamDeleted => Fail(op, [], "StreamDeleted")
    case InvalidTransaction => Fail(op, [], "InvalidTransaction")
    case AccessDenied => Fail(op, [], "AccessDenied")
    case UnknownResult => Fail(op, [], "Unexpected OperationResult")
  }

  function InspectNotHandled(op: Operation, reason: NotHandledReason): Inspected {
    match reason
    case NotReady => Inspected(op, Retry, [])
    case TooBusy => Inspected(op, Retry, [])
    case UnknownReason => Inspected(op, Retry, [])
    case NotMaster(info) =>
      if info.None? then Fail(op, [], "Error")
      else Inspected(op, Reconnect(Some(info.value.tcp), Some(info.value.secureTcp)), [])
  }

  function InspectPackage(op: Operation, reply: Reply): Inspected {
    match reply
    case Response(result, transforms) =>
      if result.None? then Fail(op, [], "Error")
      else InspectResponse(op.(responded := true), result.value, transforms)
    case NotAuthenticated => Fail(op, [], "Authentication error")
    case BadRequest => Fail(op, [], "Bad request")
    case NotHandled(reason) => if reason.None? then Fail(op, [], "Error") else InspectNotHandled(op, reason.value)
    case OtherCommand => Fail(op, [], "Unexpected command")
  }

  /**
   * Whatever the package, a pending operation is told to end exactly when its callback has been called, which is
   * then once and for good; and a reconnection always names both end points.
   */
  lemma InspectSettles(op: Operation, reply: Reply)
    requires !op.completed
    ensures var r := InspectPackage(op, reply);
            && r.operation.id == op.id
            && (r.decision.EndOperation? <==> |r.calls| == 1) && (r.decision.EndOperation? <==> r.operation.completed)
            && (|r.calls| == 0 || (|r.calls| == 1 && r.calls[0].op == op.id))
            && r.decision != DoNothing && r.decision != Subscribed
            && (r.decision.Reconnect? ==> r.decision.tcpEndPoint.Some? && r.decision.secureTcpEndPoint.Some?)
  {
  }

  /** What the callback is told of the result of an append; `None` when the append is tried again. */
  function ResultOutcome(result: OperationResult, transforms: bool): Option<Outcome> {
    match result
    case Success => Some(if transforms then Succeeded else Failed("Error"))
    case PrepareTimeout => None
    case ForwardTimeout => None
    case CommitTimeout => None
    case WrongExpectedVersion => Some(Failed("WrongExpectedVersion"))
    case StreamDeleted => Some(Failed("StreamDeleted"))
    case InvalidTransaction => Some(Failed("InvalidTransaction"))
    case AccessDenied => Some(Failed("AccessDenied"))
    case UnknownResult => Some(Failed("Unexpected OperationResult"))
  }

  /** What the callback is told of a package; a server that does not handle the operation has it tried again. */
  function ReplyOutcome(reply: Reply): Option<Outcome> {
    match reply
    case Response(Some(result), transforms) => ResultOutcome(result, transforms)
    case NotHandled(Some(reason)) => if reason == NotMaster(None) then Some(Failed("Error")) else None
    case Response(None, _) => Some(Failed("Error"))
    case NotHandled(None) => Some(Failed("Error"))
    case NotAuthenticated => Some(Failed("Authentication error"))
    case BadRequest => Some(Failed("Bad request"))
    case OtherCommand => Some(Failed("Unexpected command"))
  }

  /** One call or none. */
  function CallFor(id: nat, outcome: Option<Outcome>): seq<Callback> {
    if outcome.Some? then [Callback(id, outcome.value)] else []
  }

  /** What a package decides: only a master elsewhere, who is named, moves the connection, and to that master. */
  function DecisionOf(reply: Reply): Decision {
    if ReplyOutcome(reply).Some? then EndOperation
    else if reply.NotHandled? && reply.reason.value.NotMaster? then
      var master := reply.reason.value.info.value;
      Reconnect(Some(master.tcp), Some(master.secureTcp))
    else Retry
  }

  /** What any package makes of a pending operation. */
  lemma InspectExact(op: Operation, reply: Reply)
    requires !op.completed
    ensures var r := InspectPackage(op, reply);
            && r.calls == CallFor(op.id, ReplyOutcome(reply)) && r.decision == DecisionOf(reply)
            && r.operation.id == op.id && r.operation.completed == ReplyOutcome(reply).Some?
            && r.operation.responded == (op.responded || (reply.Response? && reply.result.Some?))
            && r.operation.wasCommitTimeout
               == (op.wasCommitTimeout || (reply.Response? && reply.result == Some(CommitTimeout)))
  {
    var r := InspectPackage(op, reply);
    assert r.calls == [] || r.calls == [] + [r.calls[0]];
  }

  /** A completed operation would be called again by any package that fails it: nothing in the operation prevents it. */
  lemma CompletedCalledAgain(op: Operation, reply: Reply)
    requires op.completed
    ensures var r := InspectPackage(op, reply);
            r.calls != [] <==> r.decision.EndOperation? && !(reply.Response? && reply.result == Some(Success))
  {
  }
}

/** An append operation as the object the source keeps: the methods against the functions above. */
module AppendToStreamOperations {
  import opened Operations
  import opened Wrappers

  class AppendToStreamOperation {
    const id: nat
    var completed: bool
    var responded: bool
    var wasCommitTimeout: bool
    var calls: seq<Callback>

    /** While the operation is pending its callback has not been called. */
    ghost predicate Valid()
      reads this
    {
      !completed ==> calls == []
    }

    ghost function State(): Operation
      reads this
    {
      Operation(id, completed, responded, wasCommitTimeout)
    }

    constructor (id: nat)
      ensures Valid() && State() == NewOperation(id) && calls == []
    {
      this.id := id;
      completed, responded, wasCommitTimeout, calls := false, false, false, [];
    }

    method Fail(reason: string)
      modifies this
      ensures completed && calls == old(calls) + [Callback(id, Failed(reason))]
      ensures unchanged(`responded) && unchanged(`wasCommitTimeout)
    {
      completed := true;
      calls := calls + [Callback(id, Failed(reason))];
    }

    /** `ok` is false when building the result throws, after the operation has been marked completed. */
    method Succeed(transforms: bool) returns (ok: bool)
      modifies this
      ensures completed && unchanged(`responded) && unchanged(`wasCommitTimeout)
      ensures ok <==> old(completed) || transforms
      ensures calls == old(calls) + if !old(completed) && ok then [Callback(id, Succeeded)] else []
    {
      ok := true;
      if !completed {
        completed := true;
        if !transforms {
          return false;
        }
        calls := calls + [Callback(id, Succeeded)];
      }
    }

    /**
     * A pending operation is told to end exactly when its callback is called, which is then for the first time, and
     * with what the package says.
     */
    method InspectPackage(reply: Reply) returns (decision: Decision)
      requires Valid()
      modifies this
      ensures Valid() && (!old(completed) ==> (decision.EndOperation? <==> completed) && |calls| <= 1)
      ensures !old(completed) ==> (completed <==> calls != [])
      ensures !old(completed) ==> calls == CallFor(id, ReplyOutcome(reply)) && decision == DecisionOf(reply)
      ensures var r := Operations.InspectPackage(old(State()), reply);
              State() == r.operation && decision == r.decision && calls == old(calls) + r.calls
    {
      hide CallFor, ReplyOutcome, DecisionOf, Operations.InspectResponse, Operations.InspectNotHandled;
      ghost var r := Operations.InspectPackage(State(), reply);
      if !completed {
        InspectSettles(State(), reply);
        assert calls + r.calls == r.calls;
        InspectExact(State(), reply);
      }
      match reply
      case Response(result, transforms) =>
        if result.None? {
          Fail("Error");
          return EndOperation;
        }
        responded := true;
        decision := InspectResponse(result.value, transforms);
      case NotAuthenticated =>
        Fail("Authentication error");
        decision := EndOperation;
      case BadRequest =>
        Fail("Bad request");
        decision := EndOperation;
      case NotHandled(reason) =>
        if reason.None? {
          Fail("Error");
          return EndOperation;
        }
        decision := InspectNotHandled(reason.value);
      case OtherCommand =>
        Fail("Unexpected command");
        decision := EndOperation;
    }

    method InspectNotHandled(reason: NotHandledReason) returns (decision: Decision)
      modifies this
      ensures old(completed) ==> completed
      ensures var r := Operations.InspectNotHandled(old(State()), reason);
              State() == r.operation && decision == r.decision && calls == old(calls) + r.calls
    {
      match reason
      case NotMaster(info) =>
        if info.None? {
          Fail("Error");
          return EndOperation;
        }
        decision := Reconnect(Some(info.value.tcp), Some(info.value.secureTcp));
      case _ =>
        decision := Retry;
    }

    method InspectResponse(result: OperationResult, transforms: bool) returns (decision: Decision)
      modifies this
      ensures old(completed) ==> completed
      ensures var r := Operations.InspectResponse(old(State()), result, transforms);
              State() == r.operation && decision == r.decision && calls == old(calls) + r.calls
    {
      decision := EndOperation;
      match result
      case Success =>
        var ok := Succeed(transforms);
        if !ok {
          Fail("Error");
        }
      case PrepareTimeout => decision := Retry;
      case ForwardTimeout => decision := Retry;
      case CommitTimeout =>
        wasCommitTimeout := true;
        decision := Retry;
      case WrongExpectedVersion => Fail("WrongExpectedVersion");
      case StreamDeleted => Fail("StreamDeleted");
      case InvalidTransaction => Fail("InvalidTransaction");
      case AccessDenied => Fail("AccessDenied");
      case UnknownResult => Fail("Unexpected OperationResult");
    }
  }
}
