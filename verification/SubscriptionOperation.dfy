/** Subscription operations: confirmation, events and drops, and the queue that runs the user's callbacks one by one. */
module SubscriptionOperations {
  import opened Operations
  import opened Wrappers

  datatype DropReason =
    | ByUser | Unauthenticated | Denied | SubscribingError | ServerError | ConnectionClosed | UnknownDrop

  /** A call of one of the user's two handlers, once it is in the queue. */
  datatype Action = Appeared(event: nat) | Dropped(reason: DropReason)

  datatype StartCall = Started | StartFailed(reason: DropReason)

  datatype SubscriptionPackage = Subscribe(id: nat, via: nat) | Unsubscribe(correlationId: Option<nat>, conn: nat)

  /**
   * `subscribed` says that the subscription object exists. `scheduled` and `inFlight` tell what the action queue waits
   * for: its own turn in the event loop, or the promise an action returned. The last four fields are history: calls of
   * the start callback, packages sent, and the actions queued and begun so far.
   */
  datatype SubOperation = SubOperation(
    id: nat, correlationId: Option<nat>, unsubscribed: bool, subscribed: bool,
    executing: bool, scheduled: bool, inFlight: bool, queue: seq<Action>,
    calls: seq<StartCall>, sent: seq<SubscriptionPackage>, queued: seq<Action>, begun: seq<Action>)

  function NewSubOperation(id: nat): SubOperation {
    SubOperation(id, None, false, false, false, false, false, [], [], [], [], [])
  }

  /** The third argument of a drop: left out, null, or a connection. */
  datatype ConnectionArgument = Omitted | Null | Via(conn: nat)

  datatype ServerDrop = Unsubscribed | AccessDeniedDrop | OtherDrop

  /** A package as a subscription sees it; absent parts are those that fail to decode. */
  datatype SubReply =
    | Confirmation(lastCommitPosition: Option<int>)
    | EventAppeared(event: Option<nat>)
    | SubscriptionDropped(drop: Option<ServerDrop>)
    | NotAuthenticatedReply
    | BadRequestReply
    | NotHandledReply(why: Option<NotHandledReason>)
    | OtherReply

  datatype SubInspected = SubInspected(op: SubOperation, decision: Decision)

  /** The outcome of a drop; `threw` says that it ended in an exception. */
  datatype DropResult = DropResult(op: SubOperation, threw: bool)

  function ExecuteAction(op: SubOperation, action: Action): SubOperation {
    op.(queue := op.queue + [action], queued := op.queued + [action],
        executing := true, scheduled := op.scheduled || !op.executing)
  }

  function DropSubscription(op: SubOperation, reason: DropReason, hasError: bool,
      conn: ConnectionArgument): DropResult {
    if op.unsubscribed then DropResult(op, false)
    else
      var gone := op.(unsubscribed := true);
      if reason != ByUser && !op.subscribed then
        if hasError then DropResult(gone.(calls := op.calls + [StartFailed(reason)]), false) else DropResult(gone, true)
      else if reason == ByUser && op.subscribed && conn.Omitted? then DropResult(gone, true)
      else if reason == ByUser && op.subscribed && conn.Via? then
        DropResult(ExecuteAction(gone.(sent := op.sent + [Unsubscribe(op.correlationId, conn.conn)]),
            Dropped(reason)), false)
      else if op.subscribed then DropResult(ExecuteAction(gone, Dropped(reason)), false)
      else DropResult(gone, false)
  }

  /** `false` when the operation has been confirmed or dropped already. */
  predicate CanSubscribe(op: SubOperation) { !op.subscribed && !op.unsubscribed }

  function Subscribing(op: SubOperation, correlationId: nat, conn: nat): SubOperation {
    op.(correlationId := Some(correlationId), sent := op.sent + [Subscribe(correlationId, conn)])
  }

  /** `None` stands for an exception. */
  function ConfirmSubscription(op: SubOperation, lastCommitPosition: int): Option<SubOperation> {
    if lastCommitPosition < -1 || op.subscribed then None
    else Some(op.(subscribed := true, calls := op.calls + [Started]))
  }

  function OnEventAppeared(op: SubOperation, event: nat): Option<SubOperation> {
    if op.unsubscribed then Some(op)
    else if !op.subscribed then None
    else Some(ExecuteAction(op, Appeared(event)))
  }

  /** The part of a volatile subscription, tried first; `None` passes the package on to the common part. */
  function InspectVolatile(op: SubOperation, reply: SubReply): Option<SubInspected> {
    match reply
    case Confirmation(Some(position)) =>
      var r := ConfirmSubscription(op, position);
      if r.Some? then Some(SubInspected(r.value, Subscribed)) else None
    case EventAppeared(Some(event)) =>
      var r := OnEventAppeared(op, event);
      if r.Some? then Some(SubInspected(r.value, DoNothing)) else None
    case _ => None
  }

  function Ended(op: SubOperation, reason: DropReason, hasError: bool): SubInspected {
    var r := DropSubscription(op, reason, hasError, Omitted);
    SubInspected(if r.threw then DropSubscription(r.op, UnknownDrop, true, Omitted).op else r.op, EndOperation)
  }

  /** The common part; what throws ends in a drop for an unknown reason. */
  function InspectCommon(op: SubOperation, reply: SubReply): SubInspected {
    match reply
    case EventAppeared(event) =>
      var r := if event.None? then None else OnEventAppeared(op, event.value);
      if r.Some? then SubInspected(r.value, DoNothing) else Ended(op, UnknownDrop, true)
    case SubscriptionDropped(None) => Ended(op, UnknownDrop, true)
    case SubscriptionDropped(Some(Unsubscribed)) => Ended(op, ByUser, false)
    case SubscriptionDropped(Some(AccessDeniedDrop)) => Ended(op, Denied, true)
    case SubscriptionDropped(Some(OtherDrop)) => Ended(op, UnknownDrop, true)
    case NotAuthenticatedReply => Ended(op, Unauthenticated, true)
    case BadRequestReply => Ended(op, ServerError, true)
    case NotHandledReply(why) =>
      if op.subscribed || why.None? then Ended(op, UnknownDrop, true)
      else (
        match why.value
        case NotMaster(None) => Ended(op, UnknownDrop, true)
        case NotMaster(Some(info)) => SubInspected(op, Reconnect(Some(info.tcp), Some(info.secureTcp)))
        case _ => SubInspected(op, Retry)
      )
    case _ => Ended(op, ServerError, true)
  }

  function InspectSubscription(op: SubOperation, reply: SubReply): SubInspected {
    var r := InspectVolatile(op, reply);
    if r.Some? then r.value else InspectCommon(op, reply)
  }

  function UnsubscribeByUser(op: SubOperation, connection: Option<nat>): SubOperation {
    DropSubscription(op, ByUser, false, if connection.Some? then Via(connection.value) else Null).op
  }

  /** One turn of the action queue; `async` says whether the action returns a promise. */
  function ExecuteActions(op: SubOperation, async: bool): SubOperation
    requires op.scheduled
  {
    if op.queue == [] then op.(executing := false, scheduled := false)
    else op.(queue := op.queue[1..], begun := op.begun + [op.queue[0]], scheduled := !async, inFlight := async)
  }

  /** The promise of the action in flight is settled, either way. */
  function ActionSettled(op: SubOperation): SubOperation
    requires op.inFlight
  {
    op.(scheduled := true, inFlight := false)
  }

  /**
   * What holds of every subscription operation. Actions begin in the order they were queued; the queue is awake
   * whenever it is not empty, and waits for one thing only; a drop is queued at most once and nothing after it; nothing
   * is queued before the confirmation; and the start callback is called at most once.
   */
  ghost predicate Orderly(op: SubOperation) {
    && op.queued == op.begun + op.queue
    && (op.executing <==> op.scheduled || op.inFlight) && !(op.scheduled && op.inFlight)
    && (!op.executing ==> op.queue == [])
    && (forall i :: 0 <= i < |op.queued| - 1 ==> op.queued[i].Appeared?)
    && (op.queued != [] && op.queued[|op.queued| - 1].Dropped? ==> op.unsubscribed)
    && (!op.subscribed ==> op.queued == [])
    && (op.subscribed ==> op.calls == [Started])
    && (!op.subscribed && !op.unsubscribed ==> op.calls == [])
    && |op.calls| <= 1
  }

  /** What the manager keeps among its active subscriptions: not dropped before being confirmed. */
  predicate Live(op: SubOperation) { op.unsubscribed ==> op.subscribed }

  lemma ExecuteActionKeeps(op: SubOperation, action: Action)
    requires op.queued == op.begun + op.queue
    ensures var r := ExecuteAction(op, action);
            r.queued == r.begun + r.queue && r.queued == op.queued + [action]
  {
    assert op.begun + (op.queue + [action]) == op.begun + op.queue + [action];
  }

  lemma DropKeeps(op: SubOperation, reason: DropReason, hasError: bool, conn: ConnectionArgument)
    requires Orderly(op)
    ensures var r := DropSubscription(op, reason, hasError, conn);
            Orderly(r.op) && r.op.unsubscribed && r.op.subscribed == op.subscribed && r.op.id == op.id
  {
    var gone := op.(unsubscribed := true);
    ExecuteActionKeeps(gone, Dropped(reason));
  }

  /**
   * A package keeps an active subscription in order, and the decision says what became of it: still pending for a
   * retry or a reconnection, confirmed just now, confirmed before, or dropped.
   */
  lemma InspectKeeps(op: SubOperation, reply: SubReply)
    requires Orderly(op) && Live(op)
    ensures var r := InspectSubscription(op, reply);
            && Orderly(r.op) && r.op.id == op.id
            && (r.decision.Retry? || r.decision.Reconnect? ==> r.op == op && (!op.subscribed))
            && (r.decision.Subscribed? ==> !op.subscribed && r.op.subscribed && !r.op.unsubscribed)
            && (r.decision.DoNothing? ==> r.op.subscribed == op.subscribed && op.subscribed && Live(r.op))
            && (r.decision.EndOperation? <==> !(r.decision.Retry? || r.decision.Reconnect? || r.decision.Subscribed?
                                                || r.decision.DoNothing?))
            && (r.decision.EndOperation? ==> r.op.unsubscribed)
            && (r.decision.Reconnect? ==> r.decision.tcpEndPoint.Some? && r.decision.secureTcpEndPoint.Some?)
  {
    hide Orderly;
    if reply.EventAppeared? && reply.event.Some? {
      EventKeeps(op, reply.event.value);
    }
    if !op.subscribed {
      ConfirmKeeps(op);
    }
    EndedKeeps(op, UnknownDrop, true);
    EndedKeeps(op, ByUser, false);
    EndedKeeps(op, Denied, true);
    EndedKeeps(op, Unauthenticated, true);
    EndedKeeps(op, ServerError, true);
  }

  lemma EventKeeps(op: SubOperation, event: nat)
    requires Orderly(op)
    ensures var r := OnEventAppeared(op, event);
            r.Some? ==>
              && Orderly(r.value) && r.value.subscribed == op.subscribed && r.value.unsubscribed == op.unsubscribed
              && r.value.id == op.id
  {
    ExecuteActionKeeps(op, Appeared(event));
  }

  lemma EndedKeeps(op: SubOperation, reason: DropReason, hasError: bool)
    requires Orderly(op)
    ensures var r := Ended(op, reason, hasError); Orderly(r.op) && r.op.unsubscribed && r.op.id == op.id
  {
    hide Orderly, DropSubscription;
    var r := DropSubscription(op, reason, hasError, Omitted);
    DropKeeps(op, reason, hasError, Omitted);
    DropKeeps(r.op, UnknownDrop, true, Omitted);
  }

  lemma ConfirmKeeps(op: SubOperation)
    requires Orderly(op) && Live(op) && !op.subscribed
    ensures Orderly(op.(subscribed := true, calls := op.calls + [Started]))
  {
  }

  /**
   * A confirmed subscription that is dropped has the drop queued for its handler, unless the drop is the user's own and
   * comes without the connection argument: then it throws half way, and the handler never learns of it.
   */
  lemma DropExact(op: SubOperation, reason: DropReason, hasError: bool, conn: ConnectionArgument)
    requires Orderly(op) && op.subscribed && !op.unsubscribed
    ensures var r := DropSubscription(op, reason, hasError, conn);
            && (r.op.queued == op.queued + [Dropped(reason)] <==> !(reason == ByUser && conn.Omitted?))
            && (r.threw <==> reason == ByUser && conn.Omitted?)
            && (r.threw ==> r.op.queued == op.queued && r.op.unsubscribed)
  {
    var r := DropSubscription(op, reason, hasError, conn);
    assert |op.queued + [Dropped(reason)]| == |op.queued| + 1;
  }

  // ---- What a package does, by the package ----

  /** Why a package drops a subscription, confirmed or not, if it does. */
  function EndReason(reply: SubReply): DropReason {
    match reply
    case NotAuthenticatedReply => Unauthenticated
    case SubscriptionDropped(Some(AccessDeniedDrop)) => Denied
    case SubscriptionDropped(Some(Unsubscribed)) => ByUser
    case BadRequestReply => ServerError
    case Confirmation(_) => ServerError
    case OtherReply => ServerError
    case _ => UnknownDrop
  }

  predicate Confirms(reply: SubReply) {
    reply.Confirmation? && reply.lastCommitPosition.Some? && reply.lastCommitPosition.value >= -1
  }

  /** What a package decides, by whether the subscription has been confirmed. */
  function ReplyDecision(subscribed: bool, reply: SubReply): Decision {
    match reply
    case EventAppeared(Some(_)) => if subscribed then DoNothing else EndOperation
    case Confirmation(_) => if !subscribed && Confirms(reply) then Subscribed else EndOperation
    case NotHandledReply(Some(NotMaster(Some(info)))) =>
      if subscribed then EndOperation else Reconnect(Some(info.tcp), Some(info.secureTcp))
    case NotHandledReply(Some(why)) => if subscribed || why.NotMaster? then EndOperation else Retry
    case _ => EndOperation
  }

  /** What a package adds to the queue of a confirmed subscription. */
  function ReplyActions(reply: SubReply): seq<Action> {
    match reply
    case EventAppeared(Some(event)) => [Appeared(event)]
    case SubscriptionDropped(Some(Unsubscribed)) => []
    case _ => [Dropped(EndReason(reply))]
  }

  /** How a package has the start callback of an unconfirmed subscription called. */
  function ReplyCalls(reply: SubReply): seq<StartCall> {
    if ReplyDecision(false, reply) == Subscribed then [Started]
    else if ReplyDecision(false, reply) == EndOperation && reply != SubscriptionDropped(Some(Unsubscribed)) then
      [StartFailed(EndReason(reply))]
    else []
  }

  lemma EndedConfirmed(op: SubOperation, reason: DropReason, hasError: bool)
    requires op.subscribed && !op.unsubscribed
    ensures var r, more := Ended(op, reason, hasError), if reason == ByUser then [] else [Dropped(reason)];
            && r.decision == EndOperation && r.op.unsubscribed && r.op.subscribed && r.op.queued == op.queued + more
            && r.op.queue == op.queue + more && r.op.begun == op.begun && r.op.calls == op.calls && r.op.sent == op.sent
            && r.op.correlationId == op.correlationId
  {
    assert op.queued + [] == op.queued && op.queue + [] == op.queue;
  }

  lemma EndedUnconfirmed(op: SubOperation, reason: DropReason, hasError: bool)
    requires !op.subscribed && !op.unsubscribed && (hasError || reason == ByUser)
    ensures Ended(op, reason, hasError)
            == SubInspected(op.(unsubscribed := true, calls := op.calls
                                + if reason == ByUser then [] else [StartFailed(reason)]), EndOperation)
  {
    assert op.calls + [] == op.calls;
  }

  lemma OthersEnd(op: SubOperation, reply: SubReply)
    requires ReplyDecision(op.subscribed, reply).EndOperation? && !op.unsubscribed
    ensures InspectSubscription(op, reply)
            == Ended(op, EndReason(reply), reply != SubscriptionDropped(Some(Unsubscribed)))
  {
    hide Ended, ExecuteAction;
  }

  /**
   * A package for a confirmed subscription: an event is queued, anything else ends it and is queued as a drop with its
   * reason, apart from the acknowledgement of an unsubscription nobody asked for.
   */
  lemma ConfirmedExact(op: SubOperation, reply: SubReply)
    requires op.subscribed && !op.unsubscribed
    ensures var r := InspectSubscription(op, reply);
            && r.decision == ReplyDecision(true, reply) && r.op.queued == op.queued + ReplyActions(reply)
            && r.op.queue == op.queue + ReplyActions(reply) && r.op.begun == op.begun
            && (r.op.unsubscribed <==> r.decision.EndOperation?) && r.op.subscribed && r.op.calls == op.calls
            && r.op.sent == op.sent && r.op.correlationId == op.correlationId
  {
    hide Ended;
    if ReplyDecision(true, reply).EndOperation? {
      OthersEnd(op, reply);
      EndedConfirmed(op, EndReason(reply), reply != SubscriptionDropped(Some(Unsubscribed)));
    }
  }

  /**
   * A package for one that is not: a confirmation at a possible position starts it, a server that is not ready has it
   * tried again, a master elsewhere has the connection moved there, and anything else ends it with an error.
   */
  lemma UnconfirmedExact(op: SubOperation, reply: SubReply)
    requires !op.subscribed && !op.unsubscribed
    ensures var r := InspectSubscription(op, reply);
            && r.decision == ReplyDecision(false, reply) && r.op.calls == op.calls + ReplyCalls(reply)
            && (r.op.subscribed <==> Confirms(reply)) && (r.op.unsubscribed <==> r.decision.EndOperation?)
            && r.op.queued == op.queued && r.op.queue == op.queue && r.op.begun == op.begun && r.op.sent == op.sent
            && r.op.correlationId == op.correlationId
  {
    hide Ended, ExecuteAction;
    if ReplyDecision(false, reply).EndOperation? {
      OthersEnd(op, reply);
      EndedUnconfirmed(op, EndReason(reply), reply != SubscriptionDropped(Some(Unsubscribed)));
    } else {
      assert op.calls + [] == op.calls;
    }
  }

  /** Once dropped, nothing is queued any more: no event, no second drop. */
  lemma SilentOnceDropped(op: SubOperation, reply: SubReply, reason: DropReason, hasError: bool,
      conn: ConnectionArgument)
    requires Orderly(op) && op.unsubscribed && op.subscribed
    ensures InspectSubscription(op, reply) == SubInspected(op, ReplyDecision(true, reply))
    ensures DropSubscription(op, reason, hasError, conn) == DropResult(op, false)
  {
  }

  /**
   * A user's unsubscription of a confirmed subscription is always notified, with or without a connection, and told to
   * the server where there is one.
   */
  lemma UnsubscribeNotifies(op: SubOperation, connection: Option<nat>)
    requires Orderly(op) && op.subscribed && !op.unsubscribed
    ensures var r := UnsubscribeByUser(op, connection);
            && Orderly(r) && r.queued == op.queued + [Dropped(ByUser)] && r.unsubscribed
            && r.sent == op.sent + if connection.Some? then [Unsubscribe(op.correlationId, connection.value)] else []
  {
    assert op.sent + [] == op.sent;
    DropKeeps(op, ByUser, false, if connection.Some? then Via(connection.value) else Null);
  }

  /** The queue runs in order, one action at a time, waits for a promise, and does not stop before it is empty. */
  lemma TurnKeeps(op: SubOperation, async: bool)
    requires Orderly(op)
    ensures op.scheduled ==>
              var r := ExecuteActions(op, async);
              && Orderly(r) && r.queued == op.queued
              && (op.queue != [] ==> r.begun == op.begun + [op.queue[0]] && r.executing && r.inFlight == async)
              && (op.queue == [] ==> !r.executing && r.begun == r.queued)
    ensures op.inFlight ==>
              var r := ActionSettled(op);
              Orderly(r) && r.scheduled && r.queued == op.queued && r.begun == op.begun
  {
    if op.queue != [] {
      assert op.begun + [op.queue[0]] + op.queue[1..] == op.begun + op.queue;
    }
  }
}
