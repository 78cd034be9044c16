/** A volatile subscription operation as the object the source keeps. */
module VolatileSubscriptionOperations {
  import opened Operations
  import opened SubscriptionOperations
  import opened Wrappers

  lemma UnsubscribeQueues(op: SubOperation, connection: Option<nat>)
    requires Orderly(op)
    ensures var r := UnsubscribeByUser(op, connection);
            && Orderly(r) && r.unsubscribed
            && r.queued == op.queued + if op.subscribed && !op.unsubscribed then [Dropped(ByUser)] else []
  {
    DropKeeps(op, ByUser, false, if connection.Some? then Via(connection.value) else Null);
    if op.subscribed && !op.unsubscribed {
      UnsubscribeNotifies(op, connection);
    }
  }

  lemma InOrder(op: SubOperation)
    requires Orderly(op)
    ensures op.queued == op.begun + op.queue
  {
  }

  /** What a package does to an operation that has not been dropped before its confirmation. */
  ghost predicate PackageDoes(op: SubOperation, reply: SubReply, d: SubOperation, decision: Decision) {
    && decision == ReplyDecision(op.subscribed, reply)
    && (op.unsubscribed ==> d == op)
    && (!op.unsubscribed ==> (d.unsubscribed <==> decision.EndOperation?))
    && (d.subscribed <==> op.subscribed || Confirms(reply))
    && d.queued == op.queued + (if op.subscribed && !op.unsubscribed then ReplyActions(reply) else [])
    && d.calls == op.calls + (if op.subscribed then [] else ReplyCalls(reply))
  }

  lemma InspectQueues(op: SubOperation, reply: SubReply)
    requires Orderly(op) && Live(op)
    ensures var r := InspectSubscription(op, reply);
            && Orderly(r.op) && |r.op.calls| <= 1 && PackageDoes(op, reply, r.op, r.decision)
            && (r.decision.EndOperation? ==> r.op.unsubscribed)
            && (r.decision.Retry? || r.decision.Reconnect? ==> r.op == op)
  {
    hide InspectSubscription, ReplyDecision, ReplyActions, ReplyCalls;
    InspectKeeps(op, reply);
    assert op.queued + [] == op.queued && op.calls + [] == op.calls;
    if op.unsubscribed {
      SilentOnceDropped(op, reply, ByUser, false, Null);
    } else if op.subscribed {
      ConfirmedExact(op, reply);
    } else {
      UnconfirmedExact(op, reply);
    }
  }

  /** A drop by the user of a confirmed subscription needs the argument, one by others before that the error. */
  predicate DropThrows(op: SubOperation, reason: DropReason, hasError: bool, conn: ConnectionArgument) {
    !op.unsubscribed && (if op.subscribed then reason == ByUser && conn.Omitted? else reason != ByUser && !hasError)
  }

  class VolatileSubscriptionOperation {
    const id: nat
    var correlationId: Option<nat>
    var unsubscribed: bool
    var subscribed: bool
    var executing: bool
    var scheduled: bool
    var inFlight: bool
    var queue: seq<Action>
    /** What the operation has done to the world so far. */
    var calls: seq<StartCall>
    var sent: seq<SubscriptionPackage>
    ghost var queued: seq<Action>
    var begun: seq<Action>

    ghost predicate Valid()
      reads this
    {
      Orderly(State())
    }

    ghost function State(): SubOperation
      reads this
    {
      SubOperation(id, correlationId, unsubscribed, subscribed, executing, scheduled, inFlight, queue, calls, sent,
          queued, begun)
    }

    constructor (id: nat)
      ensures Valid() && State() == NewSubOperation(id)
    {
      this.id := id;
      correlationId, unsubscribed, subscribed, executing, scheduled, inFlight := None, false, false, false, false,
          false;
      queue, calls, sent, queued, begun := [], [], [], [], [];
    }

    /** Asks the server, unless the subscription has been confirmed or dropped already. */
    method Subscribe(correlationId: nat, conn: nat) returns (ok: bool)
      requires Valid()
      modifies this
      ensures Valid() && (ok <==> !old(subscribed) && !old(unsubscribed))
      ensures State() == if ok then Subscribing(old(State()), correlationId, conn) else old(State())
      ensures ok ==> sent == old(sent) + [SubscriptionPackage.Subscribe(correlationId, conn)]
    {
      if subscribed || unsubscribed {
        return false;
      }
      this.correlationId := Some(correlationId);
      sent := sent + [SubscriptionPackage.Subscribe(correlationId, conn)];
      return true;
    }

    /** A confirmed subscription is told its end, once, through the queue. */
    method Unsubscribe(connection: Option<nat>)
      requires Valid()
      modifies this
      ensures Valid() && State() == UnsubscribeByUser(old(State()), connection) && unsubscribed
      ensures queued == old(queued) + if old(subscribed) && !old(unsubscribed) then [Dropped(ByUser)] else []
    {
      hide SubscriptionOperations.DropSubscription, Orderly;
      UnsubscribeQueues(State(), connection);
      var _ := DropSubscription(ByUser, false, if connection.Some? then Via(connection.value) else Null);
    }

    method ExecuteAction(action: Action)
      modifies this
      ensures State() == SubscriptionOperations.ExecuteAction(old(State()), action)
    {
      queue := queue + [action];
      queued := queued + [action];
      if !executing {
        executing := true;
        scheduled := true;
      }
    }

    /**
     * The first drop of a confirmed subscription queues its notification, and that of an unconfirmed one calls its
     * start callback with the error, unless the drop throws: without the error it needs, or without the argument for
     * it.
     */
    method DropSubscription(reason: DropReason, hasError: bool, conn: ConnectionArgument) returns (threw: bool)
      modifies this
      ensures unsubscribed && subscribed == old(subscribed)
      ensures threw <==> DropThrows(old(State()), reason, hasError, conn)
      ensures var (active, dropped) := (old(subscribed && !unsubscribed), old(unsubscribed));
              && queued == old(queued) + (if active && !threw then [Dropped(reason)] else [])
              && calls == old(calls)
                          + (if active || dropped || threw || reason == ByUser then [] else [StartFailed(reason)])
      ensures DropResult(State(), threw)
              == SubscriptionOperations.DropSubscription(old(State()), reason, hasError, conn)
    {
      if !unsubscribed {
        unsubscribed := true;
        if reason != ByUser && !subscribed {
          if !hasError {
            return true;
          }
          calls := calls + [StartFailed(reason)];
          return false;
        }
        if reason == ByUser && subscribed && conn != Null {
          if conn.Omitted? {
            return true;
          }
          sent := sent + [SubscriptionPackage.Unsubscribe(correlationId, conn.conn)];
        }
        if subscribed {
          ExecuteAction(Dropped(reason));
        }
      }
      return false;
    }

    method ConfirmSubscription(lastCommitPosition: int) returns (threw: bool)
      modifies this
      ensures var r := SubscriptionOperations.ConfirmSubscription(old(State()), lastCommitPosition);
              threw == r.None? && State() == if threw then old(State()) else r.value
    {
      if lastCommitPosition < -1 || subscribed {
        return true;
      }
      subscribed := true;
      calls := calls + [Started];
      return false;
    }

    method OnEventAppeared(event: nat) returns (threw: bool)
      modifies this
      ensures var r := SubscriptionOperations.OnEventAppeared(old(State()), event);
              threw == r.None? && State() == if threw then old(State()) else r.value
    {
      if unsubscribed {
        return false;
      }
      if !subscribed {
        return true;
      }
      ExecuteAction(Appeared(event));
      return false;
    }

    method InspectVolatile(reply: SubReply) returns (decision: Option<Decision>)
      modifies this
      ensures var r := SubscriptionOperations.InspectVolatile(old(State()), reply);
              decision.Some? == r.Some? && (r.Some? ==> r.value == SubInspected(State(), decision.value))
              && (r.None? ==> State() == old(State()))
    {
      decision := None;
      match reply
      case Confirmation(Some(position)) =>
        var threw := ConfirmSubscription(position);
        if !threw {
          decision := Some(Decision.Subscribed);
        }
      case EventAppeared(Some(event)) =>
        var threw := OnEventAppeared(event);
        if !threw {
          decision := Some(DoNothing);
        }
      case _ =>
    }

    /** A drop inside the inspection, with the exception handler around it. */
    method End(reason: DropReason, hasError: bool) returns (decision: Decision)
      modifies this
      ensures SubInspected(State(), decision) == Ended(old(State()), reason, hasError)
    {
      var threw := DropSubscription(reason, hasError, Omitted);
      if threw {
        var _ := DropSubscription(UnknownDrop, true, Omitted);
      }
      return EndOperation;
    }

    /**
     * An operation dropped before it was confirmed gets no package any more. Any other stays in order, has what the
     * package asks for queued and its start callback called accordingly, is dropped when told to end, and untouched
     * when it is to try again.
     */
    method InspectPackage(reply: SubReply) returns (decision: Decision)
      requires Valid() && Live(State())
      modifies this
      ensures Valid() && SubInspected(State(), decision) == InspectSubscription(old(State()), reply)
      ensures PackageDoes(old(State()), reply, State(), decision) && |calls| <= 1
      ensures (decision.EndOperation? ==> unsubscribed)
              && (decision.Retry? || decision.Reconnect? ==> State() == old(State()))
    {
      hide Orderly, Ended, SubscriptionOperations.OnEventAppeared, SubscriptionOperations.InspectVolatile, PackageDoes;
      InspectQueues(State(), reply);
      var first := InspectVolatile(reply);
      if first.Some? {
        return first.value;
      }
      match reply
      case EventAppeared(event) =>
        if event.Some? {
          var threw := OnEventAppeared(event.value);
          if !threw {
            return DoNothing;
          }
        }
        decision := End(UnknownDrop, true);
      case SubscriptionDropped(drop) =>
        if drop == Some(Unsubscribed) {
          decision := End(ByUser, false);
        } else {
          decision := End(if drop == Some(AccessDeniedDrop) then Denied else UnknownDrop, true);
        }
      case NotAuthenticatedReply =>
        decision := End(Unauthenticated, true);
      case BadRequestReply =>
        decision := End(ServerError, true);
      case NotHandledReply(why) =>
        if subscribed || why.None? || (why.value.NotMaster? && why.value.info.None?) {
          decision := End(UnknownDrop, true);
        } else if why.value.NotMaster? {
          decision := Reconnect(Some(why.value.info.value.tcp), Some(why.value.info.value.secureTcp));
        } else {
          decision := Retry;
        }
      case _ =>
        decision := End(ServerError, true);
    }

    /** One turn of the action queue: the first action begins, or the queue goes to sleep because there is none. */
    method ExecuteActions(async: bool)
      requires Valid() && scheduled
      modifies this
      ensures Valid() && State() == SubscriptionOperations.ExecuteActions(old(State()), async)
      ensures queued == old(queued) && begun + queue == old(begun + queue)
      ensures if old(queue) == [] then !executing && begun == queued else executing && |begun| == |old(begun)| + 1
    {
      hide Orderly;
      TurnKeeps(State(), async);
      InOrder(State());
      if queue == [] {
        executing, scheduled := false, false;
        return;
      }
      var action := queue[0];
      queue := queue[1..];
      begun := begun + [action];
      scheduled, inFlight := !async, async;
    }

    method ActionSettled()
      requires Valid() && inFlight
      modifies this
      ensures Valid() && State() == SubscriptionOperations.ActionSettled(old(State()))
    {
      hide Orderly;
      TurnKeeps(State(), false);
      scheduled, inFlight := true, false;
    }
  }
}
