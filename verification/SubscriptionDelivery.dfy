/** What reaches the user of a subscription over a whole run, against the packages that came. */
module SubscriptionDeliveries {
  import opened Operations
  import opened SubscriptionOperations
  import opened SubscriptionScheduling
  import opened Wrappers

  /** Everything that can happen to a subscription operation. */
  datatype Step =
    | Package(reply: SubReply)
    | Asks(correlationId: nat, conn: nat)
    | ManagerDrops(reason: DropReason)
    | Touches(touch: Touch)

  /** One that is dropped before its confirmation gets no package any more. */
  function Stepped(op: SubOperation, step: Step): SubOperation {
    match step
    case Package(reply) => if Live(op) then InspectSubscription(op, reply).op else op
    case Asks(correlationId, conn) => if CanSubscribe(op) then Subscribing(op, correlationId, conn) else op
    case ManagerDrops(reason) => DropFor(op, reason)
    case Touches(touch) => Touched(op, touch)
  }

  function AfterSteps(op: SubOperation, steps: seq<Step>): SubOperation {
    if steps == [] then op else Stepped(AfterSteps(op, steps[..|steps| - 1]), steps[|steps| - 1])
  }

  datatype Standing = Pending | Confirmed | Gone

  predicate BringsEvent(step: Step) {
    step.Package? && step.reply.EventAppeared? && step.reply.event.Some?
  }

  /** A server that is not ready or not the master; one that does not say who is ends the attempt. */
  predicate BringsRetry(step: Step) {
    step.Package? && step.reply.NotHandledReply? && step.reply.why.Some? && step.reply.why != Some(NotMaster(None))
  }

  /** Where a subscription stands, by the steps alone. */
  function After(standing: Standing, step: Step): Standing {
    match standing
    case Gone => Gone
    case Confirmed =>
      if step.ManagerDrops? || (step.Touches? && step.touch.UserUnsubscribes?)
         || (step.Package? && !BringsEvent(step)) then Gone
      else Confirmed
    case Pending =>
      if step.ManagerDrops? then Gone
      else if !step.Package? then Pending
      else if Confirms(step.reply) then Confirmed
      else if BringsRetry(step) then Pending
      else Gone
  }

  function StandingAfter(steps: seq<Step>): Standing {
    if steps == [] then Pending else After(StandingAfter(steps[..|steps| - 1]), steps[|steps| - 1])
  }

  /** The events that arrive between the confirmation and the end. */
  function EventsBetween(steps: seq<Step>): seq<nat> {
    if steps == [] then []
    else
      var front, last := steps[..|steps| - 1], steps[|steps| - 1];
      EventsBetween(front)
      + if StandingAfter(front) == Confirmed && BringsEvent(last) then [last.reply.event.value] else []
  }

  /** The events among the actions. */
  function Events(actions: seq<Action>): seq<nat> {
    if actions == [] then []
    else
      var last := actions[|actions| - 1];
      Events(actions[..|actions| - 1]) + if last.Appeared? then [last.event] else []
  }

  predicate StandsAt(op: SubOperation, standing: Standing) {
    match standing
    case Pending => !op.subscribed && !op.unsubscribed
    case Confirmed => op.subscribed && !op.unsubscribed
    case Gone => op.unsubscribed
  }

  lemma EventsSnoc(actions: seq<Action>, action: Action)
    ensures Events(actions + [action]) == Events(actions) + if action.Appeared? then [action.event] else []
  {
    assert (actions + [action])[..|actions|] == actions;
  }

  /** What one step may do to an operation, by where it stands. */
  ghost predicate StepDoes(op: SubOperation, step: Step, d: SubOperation, standing: Standing) {
    && Orderly(d) && StandsAt(d, After(standing, step))
    && Events(d.queued)
       == Events(op.queued) + if standing == Confirmed && BringsEvent(step) then [step.reply.event.value] else []
  }

  lemma PackageStep(op: SubOperation, reply: SubReply, standing: Standing)
    requires Orderly(op) && StandsAt(op, standing)
    ensures StepDoes(op, Package(reply), Stepped(op, Package(reply)), standing)
  {
    hide Orderly, InspectSubscription, Events;
    assert Events(op.queued) + [] == Events(op.queued);
    if Live(op) {
      InspectKeeps(op, reply);
      if op.unsubscribed {
        SilentOnceDropped(op, reply, ByUser, false, Null);
      } else if op.subscribed {
        ConfirmedExact(op, reply);
        assert op.queued + [] == op.queued;
        if ReplyActions(reply) != [] {
          EventsSnoc(op.queued, ReplyActions(reply)[0]);
        }
      } else {
        UnconfirmedExact(op, reply);
      }
    }
  }

  lemma DropStep(op: SubOperation, reason: DropReason, hasError: bool, conn: ConnectionArgument)
    requires Orderly(op)
    ensures var d := DropSubscription(op, reason, hasError, conn).op;
            Orderly(d) && d.unsubscribed && Events(d.queued) == Events(op.queued)
  {
    hide Orderly, Events;
    DropKeeps(op, reason, hasError, conn);
    EventsSnoc(op.queued, Dropped(reason));
    assert Events(op.queued) + [] == Events(op.queued);
  }

  /** A step that queues nothing and leaves the operation where it stands. */
  lemma StillStands(op: SubOperation, step: Step, d: SubOperation, standing: Standing)
    requires StandsAt(op, standing) && After(standing, step) == standing && !BringsEvent(step)
    requires Orderly(d) && d.queued == op.queued && d.subscribed == op.subscribed && d.unsubscribed == op.unsubscribed
    ensures StepDoes(op, step, d, standing)
  {
    hide Orderly, Events;
    assert Events(op.queued) + [] == Events(op.queued);
  }

  lemma TurnStep(op: SubOperation, touch: Touch, standing: Standing)
    requires Orderly(op) && StandsAt(op, standing) && !touch.UserUnsubscribes?
    ensures StepDoes(op, Touches(touch), Touched(op, touch), standing)
  {
    hide Orderly, StandsAt, StepDoes;
    TurnKeeps(op, touch.Turn? && touch.async);
    StillStands(op, Touches(touch), Touched(op, touch), standing);
  }

  lemma UnsubscribeStep(op: SubOperation, connection: Option<nat>, standing: Standing)
    requires Orderly(op) && StandsAt(op, standing)
    ensures StepDoes(op, Touches(UserUnsubscribes(connection)), Touched(op, UserUnsubscribes(connection)), standing)
  {
    hide Orderly, Events, DropSubscription;
    DropStep(op, ByUser, false, if connection.Some? then Via(connection.value) else Null);
    assert Events(op.queued) + [] == Events(op.queued);
    if !op.subscribed {
      NotConfirmed(op, standing);
    }
  }

  lemma TouchStep(op: SubOperation, touch: Touch, standing: Standing)
    requires Orderly(op) && StandsAt(op, standing)
    ensures StepDoes(op, Touches(touch), Stepped(op, Touches(touch)), standing)
  {
    hide Orderly, StandsAt, StepDoes, Touched;
    match touch
    case UserUnsubscribes(connection) => UnsubscribeStep(op, connection, standing);
    case _ => TurnStep(op, touch, standing);
  }

  lemma OtherStep(op: SubOperation, step: Step, standing: Standing)
    requires Orderly(op) && StandsAt(op, standing) && (step.Asks? || step.ManagerDrops?)
    ensures StepDoes(op, step, Stepped(op, step), standing)
  {
    hide Orderly, Events, DropSubscription;
    assert Events(op.queued) + [] == Events(op.queued);
    match step
    case Asks(correlationId, conn) => AskedOrderly(op, correlationId, conn);
    case ManagerDrops(reason) => DropStep(op, reason, true, Omitted);
  }

  lemma NotConfirmed(op: SubOperation, standing: Standing)
    requires StandsAt(op, standing) && !op.subscribed
    ensures standing != Confirmed
  {
  }

  lemma AskedOrderly(op: SubOperation, correlationId: nat, conn: nat)
    requires Orderly(op)
    ensures Orderly(Subscribing(op, correlationId, conn))
  {
  }

  /**
   * In every run of a new subscription, whatever the server sends and whenever the user's handlers take their turns:
   * the events queued for the user are exactly those that arrived between the confirmation and the end, in that
   * order, and they are handed over in the order of the queue.
   */
  lemma {:induction false} EventsDelivered(id: nat, steps: seq<Step>)
    ensures var op := AfterSteps(NewSubOperation(id), steps);
            && Events(op.queued) == EventsBetween(steps) && op.queued == op.begun + op.queue
            && StandsAt(op, StandingAfter(steps)) && Orderly(op)
  {
    hide Stepped, StandsAt, Events, After;
    if steps == [] {
      NewStands(id);
    } else {
      var front, last := steps[..|steps| - 1], steps[|steps| - 1];
      EventsDelivered(id, front);
      var op := AfterSteps(NewSubOperation(id), front);
      if last.Package? {
        PackageStep(op, last.reply, StandingAfter(front));
      } else if last.Touches? {
        TouchStep(op, last.touch, StandingAfter(front));
      } else {
        OtherStep(op, last, StandingAfter(front));
      }
    }
  }

  lemma NewStands(id: nat)
    ensures var op := NewSubOperation(id); Orderly(op) && StandsAt(op, Pending) && Events(op.queued) == []
  {
  }
}
