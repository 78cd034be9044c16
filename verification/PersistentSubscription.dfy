/** Persistent subscriptions: a queue of events handed to the user's handler one by one, and acknowledged. */
module PersistentSubscriptions {
  import opened Wrappers

  datatype Reason = UserInitiated | ByServer(code: nat) | EventHandlerException

  datatype Item = Event(id: nat) | DropMarker

  /** A handler call that has ended. */
  datatype Outcome = Outcome(id: nat, ok: bool)

  /**
   * `active` says that the underlying subscription is known. `scheduled` and `inFlight` are what the queue waits for:
   * its turn, or the promise of the handler running for that event; `stuck` says that the promise chain has broken off.
   * The remaining fields are history.
   */
  datatype Persistent = Persistent(
    autoAck: bool, active: bool, dropData: Option<Reason>, queue: seq<Item>, isProcessing: bool, isDropped: bool,
    scheduled: bool, inFlight: Option<nat>, stuck: bool,
    arrived: seq<nat>, started: seq<nat>, discarded: seq<nat>, outcomes: seq<Outcome>, acked: seq<nat>,
    drops: seq<Reason>, unsubscribes: nat)

  function NewPersistent(autoAck: bool): Persistent {
    Persistent(autoAck, false, None, [], false, false, false, None, false, [], [], [], [], [], [], 0)
  }

  function Enqueue(p: Persistent, item: Item): Persistent {
    p.(queue := p.queue + [item], isProcessing := true, scheduled := p.scheduled || !p.isProcessing)
  }

  function OnEventAppeared(p: Persistent, id: nat): Persistent {
    Enqueue(p.(arrived := p.arrived + [id]), Event(id))
  }

  function EnqueueDropNotification(p: Persistent, reason: Reason): Persistent {
    if p.dropData.Some? then p else Enqueue(p.(dropData := Some(reason)), DropMarker)
  }

  function DropSubscription(p: Persistent, reason: Reason): Persistent {
    if p.isDropped then p
    else p.(isDropped := true, drops := p.drops + [reason], unsubscribes := p.unsubscribes + if p.active then 1 else 0)
  }

  /** One turn of the queue. A marker without drop data is an exception, which leaves the queue processing nothing. */
  function ProcessQueue(p: Persistent): Persistent
    requires p.scheduled
  {
    if p.queue == [] then p.(isProcessing := false, scheduled := false)
    else
      var rest := p.(queue := p.queue[1..], scheduled := false);
      match p.queue[0]
      case DropMarker =>
        if p.dropData.None? then rest.(stuck := true)
        else DropSubscription(rest, p.dropData.value).(isProcessing := false)
      case Event(id) =>
        if p.dropData.Some? then
          DropSubscription(rest, p.dropData.value).(isProcessing := false, discarded := p.discarded + [id])
        else rest.(inFlight := Some(id), started := p.started + [id])
  }

  /** The handler's promise is fulfilled; acknowledging without a subscription is an exception. */
  function HandlerSucceeded(p: Persistent): Persistent
    requires p.inFlight.Some?
  {
    var id := p.inFlight.value;
    var done := p.(inFlight := None, outcomes := p.outcomes + [Outcome(id, true)]);
    if p.autoAck && !p.active then done.(stuck := true)
    else done.(scheduled := true, acked := if p.autoAck then p.acked + [id] else p.acked)
  }

  /** The handler threw, or its promise is rejected. */
  function HandlerFailed(p: Persistent): Persistent
    requires p.inFlight.Some?
  {
    DropSubscription(
      p.(inFlight := None, outcomes := p.outcomes + [Outcome(p.inFlight.value, false)]), EventHandlerException)
    .(isProcessing := false)
  }

  datatype Input =
    | SubscriptionStarted | EventAppeared(id: nat) | Dropped(reason: Reason) | Stop | Turn | Fulfilled | Rejected

  function React(p: Persistent, input: Input): Persistent {
    match input
    case SubscriptionStarted => p.(active := true)
    case EventAppeared(id) => OnEventAppeared(p, id)
    case Dropped(reason) => EnqueueDropNotification(p, reason)
    case Stop => EnqueueDropNotification(p, UserInitiated)
    case Turn => if p.scheduled then ProcessQueue(p) else p
    case Fulfilled => if p.inFlight.Some? then HandlerSucceeded(p) else p
    case Rejected => if p.inFlight.Some? then HandlerFailed(p) else p
  }

  function ReactAll(p: Persistent, inputs: seq<Input>): Persistent {
    if inputs == [] then p else React(ReactAll(p, inputs[..|inputs| - 1]), inputs[|inputs| - 1])
  }

  function EventIds(items: seq<Item>): seq<nat> {
    if items == [] then []
    else
      var front, last := EventIds(items[..|items| - 1]), items[|items| - 1];
      if last.Event? then front + [last.id] else front
  }

  function Ids(outcomes: seq<Outcome>): seq<nat> {
    seq(|outcomes|, i requires 0 <= i < |outcomes| => outcomes[i].id)
  }

  function Succeeded(outcomes: seq<Outcome>): seq<nat> {
    if outcomes == [] then []
    else
      var front, last := Succeeded(outcomes[..|outcomes| - 1]), outcomes[|outcomes| - 1];
      if last.ok then front + [last.id] else front
  }

  function Flying(p: Persistent): seq<nat> { if p.inFlight.Some? then [p.inFlight.value] else [] }

  ghost predicate NoMarker(items: seq<Item>) { forall i :: 0 <= i < |items| ==> items[i].Event? }

  /** Events leave the queue in the order they arrived, and handlers run one at a time in that order. */
  ghost predicate InOrder(p: Persistent) {
    && p.arrived == p.started + p.discarded + EventIds(p.queue)
    && p.started == Ids(p.outcomes) + Flying(p)
    && (p.dropData.None? ==> p.discarded == [])
  }

  /** The queue waits for one thing; it is awake whenever it is not empty, unless the subscription has been dropped. */
  ghost predicate Awake(p: Persistent) {
    && (p.isProcessing <==> p.scheduled || p.inFlight.Some? || p.stuck)
    && !(p.scheduled && p.inFlight.Some?) && !(p.scheduled && p.stuck) && !(p.inFlight.Some? && p.stuck)
    && (!p.isProcessing && !p.isDropped ==> p.queue == [])
    && (p.stuck ==> p.autoAck)
  }

  /** With automatic acknowledgement, exactly what was handled with success is acknowledged. */
  ghost predicate Acknowledged(p: Persistent) {
    if !p.autoAck then p.acked == []
    else if p.stuck then p.outcomes != [] && p.acked == Succeeded(p.outcomes[..|p.outcomes| - 1])
    else p.acked == Succeeded(p.outcomes)
  }

  /** The drop callback is called at most once, with a marker for it only when drop data is set. */
  ghost predicate DroppedOnce(p: Persistent) {
    && |p.drops| == (if p.isDropped then 1 else 0) && p.unsubscribes <= |p.drops|
    && (p.dropData.None? ==> NoMarker(p.queue))
  }

  ghost predicate Orderly(p: Persistent) { InOrder(p) && Awake(p) && Acknowledged(p) && DroppedOnce(p) }

  lemma EventIdsSnoc(items: seq<Item>, item: Item)
    ensures EventIds(items + [item]) == EventIds(items) + (if item.Event? then [item.id] else [])
  {
    assert (items + [item])[..|items|] == items;
  }

  lemma {:induction false} EventIdsFirst(items: seq<Item>)
    requires items != []
    ensures EventIds(items) == (if items[0].Event? then [items[0].id] else []) + EventIds(items[1..])
  {
    if |items| == 1 {
      assert items == [items[0]] && items[..0] == [] && items[1..] == [];
    } else {
      EventIdsFirst(items[..|items| - 1]);
      assert items[1..][..|items| - 2] == items[..|items| - 1][1..];
    }
  }

  lemma EnqueueKeeps(p: Persistent, item: Item)
    requires Awake(p) && Acknowledged(p)
    ensures Awake(Enqueue(p, item)) && Acknowledged(Enqueue(p, item))
    ensures EventIds(Enqueue(p, item).queue) == EventIds(p.queue) + (if item.Event? then [item.id] else [])
  {
    EventIdsSnoc(p.queue, item);
  }

  lemma AppearedKeeps(p: Persistent, id: nat)
    requires Orderly(p)
    ensures Orderly(OnEventAppeared(p, id))
  {
    hide Acknowledged, Awake, EventIds, Ids;
    var q := p.(arrived := p.arrived + [id]);
    assert Awake(q) && Acknowledged(q) by { SameQueue(p, q); }
    EnqueueKeeps(q, Event(id));
  }

  lemma SameQueue(p: Persistent, q: Persistent)
    requires Awake(p) && Acknowledged(p) && q == p.(arrived := q.arrived, dropData := q.dropData, active := q.active)
    ensures Awake(q) && Acknowledged(q)
  {
  }

  lemma NotifiedKeeps(p: Persistent, reason: Reason)
    requires Orderly(p)
    ensures Orderly(EnqueueDropNotification(p, reason))
  {
    hide Acknowledged, Awake, EventIds, Ids;
    var q := p.(dropData := Some(reason));
    assert Awake(q) && Acknowledged(q) by { SameQueue(p, q); }
    EnqueueKeeps(q, DropMarker);
  }

  lemma TurnKeeps(p: Persistent)
    requires Orderly(p) && p.scheduled
    ensures Orderly(ProcessQueue(p))
  {
    hide EventIds, Ids, Acknowledged, InOrder, DropSubscription;
    TurnAcknowledged(p);
    if p.queue == [] {
      assert InOrder(ProcessQueue(p)) by { SameEvents(p, ProcessQueue(p)); }
    } else if p.dropData.Some? {
      TurnDrops(p);
    } else {
      TurnStarts(p);
    }
  }

  lemma SameEvents(p: Persistent, q: Persistent)
    requires InOrder(p) && q == p.(isProcessing := q.isProcessing, scheduled := q.scheduled)
    ensures InOrder(q)
  {
  }

  lemma TurnDrops(p: Persistent)
    requires InOrder(p) && Awake(p) && DroppedOnce(p) && p.scheduled && p.queue != [] && p.dropData.Some?
    ensures var r := ProcessQueue(p); InOrder(r) && Awake(r) && DroppedOnce(r)
  {
    hide EventIds, Ids, DropSubscription;
    var rest := p.(queue := p.queue[1..], scheduled := false);
    EventIdsFirst(p.queue);
    DropFrame(rest, p.dropData.value);
  }

  /** What a drop changes: the flag, the callback and the unsubscription. */
  lemma DropFrame(p: Persistent, reason: Reason)
    requires |p.drops| == (if p.isDropped then 1 else 0) && p.unsubscribes <= |p.drops|
    ensures var r := DropSubscription(p, reason);
            && r == p.(isDropped := true, drops := r.drops, unsubscribes := r.unsubscribes)
            && |r.drops| == 1 && r.unsubscribes <= 1
  {
  }

  lemma TurnStarts(p: Persistent)
    requires InOrder(p) && Awake(p) && DroppedOnce(p) && p.scheduled && p.queue != [] && p.dropData.None?
    ensures var r := ProcessQueue(p); InOrder(r) && Awake(r) && DroppedOnce(r)
  {
    hide EventIds, Ids, DropSubscription;
    EventIdsFirst(p.queue);
    assert p.queue[0].Event?;
  }

  lemma TurnAcknowledged(p: Persistent)
    requires Orderly(p) && p.scheduled
    ensures Acknowledged(ProcessQueue(p))
  {
    hide EventIds, Ids, Succeeded;
  }

  lemma SucceededKeeps(p: Persistent)
    requires Orderly(p) && p.inFlight.Some?
    ensures Orderly(HandlerSucceeded(p))
  {
    hide EventIds;
    var o := Outcome(p.inFlight.value, true);
    assert (p.outcomes + [o])[..|p.outcomes|] == p.outcomes;
    assert Ids(p.outcomes + [o]) == Ids(p.outcomes) + [o.id];
  }

  lemma FailedKeeps(p: Persistent)
    requires Orderly(p) && p.inFlight.Some?
    ensures Orderly(HandlerFailed(p))
  {
    hide EventIds;
    var o := Outcome(p.inFlight.value, false);
    assert (p.outcomes + [o])[..|p.outcomes|] == p.outcomes;
    assert Ids(p.outcomes + [o]) == Ids(p.outcomes) + [o.id];
  }

  lemma ReactKeeps(p: Persistent, input: Input)
    requires Orderly(p)
    ensures Orderly(React(p, input))
  {
    hide Orderly, OnEventAppeared, EnqueueDropNotification, ProcessQueue, HandlerSucceeded, HandlerFailed;
    match input
    case SubscriptionStarted => ActiveKeeps(p);
    case EventAppeared(id) => AppearedKeeps(p, id);
    case Dropped(reason) => NotifiedKeeps(p, reason);
    case Stop => NotifiedKeeps(p, UserInitiated);
    case Turn => if p.scheduled { TurnKeeps(p); }
    case Fulfilled => if p.inFlight.Some? { SucceededKeeps(p); }
    case Rejected => if p.inFlight.Some? { FailedKeeps(p); }
  }

  lemma ActiveKeeps(p: Persistent)
    requires Orderly(p)
    ensures Orderly(p.(active := true))
  {
  }

  /** Every run keeps the order, the acknowledgements and the one drop. */
  lemma {:induction false} RunIsOrderly(autoAck: bool, inputs: seq<Input>)
    ensures Orderly(ReactAll(NewPersistent(autoAck), inputs))
  {
    hide React;
    if inputs == [] {
      assert Ids([]) == [];
    } else {
      RunIsOrderly(autoAck, inputs[..|inputs| - 1]);
      ReactKeeps(ReactAll(NewPersistent(autoAck), inputs[..|inputs| - 1]), inputs[|inputs| - 1]);
    }
  }

  // ---- What each input does ----

  /** The fields that only a handler call, its end, or a drop change. */
  ghost predicate SameHandlers(p: Persistent, q: Persistent) {
    && q.autoAck == p.autoAck && q.inFlight == p.inFlight && q.stuck == p.stuck && q.started == p.started
    && q.discarded == p.discarded && q.outcomes == p.outcomes && q.acked == p.acked
  }

  ghost predicate SameDrops(p: Persistent, q: Persistent) {
    q.isDropped == p.isDropped && q.drops == p.drops && q.unsubscribes == p.unsubscribes
  }

  /** The owner is told, unless that has been done, and the server subscription ends if there is one. */
  ghost predicate Drops(p: Persistent, q: Persistent, reason: Reason) {
    && q.isDropped && q.drops == p.drops + (if p.isDropped then [] else [reason])
    && q.unsubscribes == p.unsubscribes + (if p.active && !p.isDropped then 1 else 0)
  }

  /** An item is queued, and the queue awake. */
  ghost predicate Queues(p: Persistent, q: Persistent, item: Item) {
    && q.queue == p.queue + [item] && q.isProcessing && q.scheduled == (p.scheduled || !p.isProcessing)
    && SameHandlers(p, q) && SameDrops(p, q) && q.active == p.active
  }

  /** A turn of the queue, with something in it. */
  ghost predicate Turns(p: Persistent, q: Persistent)
    requires p.queue != []
  {
    && q.queue == p.queue[1..] && !q.scheduled && q.dropData == p.dropData && q.acked == p.acked
    && q.outcomes == p.outcomes
    && if p.dropData.Some? then
         && Drops(p, q, p.dropData.value) && !q.isProcessing && q.started == p.started && q.inFlight == p.inFlight
         && q.discarded == p.discarded + (if p.queue[0].Event? then [p.queue[0].id] else [])
       else
         p.queue[0].Event? ==>
           && SameDrops(p, q) && q.started == p.started + [p.queue[0].id] && q.inFlight == Some(p.queue[0].id)
           && q.discarded == p.discarded && q.isProcessing == p.isProcessing
  }

  /** The end of a handler call: acknowledged and on to the next, or reported and the queue stopped. */
  ghost predicate Ends(p: Persistent, q: Persistent, ok: bool)
    requires p.inFlight.Some?
  {
    var id := p.inFlight.value;
    && q.inFlight.None? && q.outcomes == p.outcomes + [Outcome(id, ok)] && q.started == p.started && q.queue == p.queue
    && q.dropData == p.dropData
    && if ok then
         && SameDrops(p, q) && q.acked == p.acked + (if p.autoAck && p.active then [id] else [])
         && (if p.autoAck && !p.active then q.stuck else q.scheduled && q.stuck == p.stuck)
       else Drops(p, q, EventHandlerException) && q.acked == p.acked && !q.isProcessing
  }

  /** What an input does to a subscription. */
  ghost predicate Does(p: Persistent, input: Input, q: Persistent) {
    match input
    case SubscriptionStarted => q == p.(active := true)
    case EventAppeared(id) => Queues(p, q, Event(id)) && q.arrived == p.arrived + [id] && q.dropData == p.dropData
    case Dropped(reason) =>
      if p.dropData.Some? then q == p else Queues(p, q, DropMarker) && q.dropData == Some(reason)
    case Stop =>
      if p.dropData.Some? then q == p else Queues(p, q, DropMarker) && q.dropData == Some(UserInitiated)
    case Turn =>
      if !p.scheduled then q == p
      else if p.queue == [] then q == p.(isProcessing := false, scheduled := false)
      else Turns(p, q)
    case Fulfilled => if p.inFlight.None? then q == p else Ends(p, q, true)
    case Rejected => if p.inFlight.None? then q == p else Ends(p, q, false)
  }

  lemma DropDoes(p: Persistent, reason: Reason)
    ensures var r := DropSubscription(p, reason);
            Drops(p, r, reason) && r == p.(isDropped := r.isDropped, drops := r.drops, unsubscribes := r.unsubscribes)
  {
    assert p.drops + [] == p.drops;
  }

  lemma TurnDoes(p: Persistent)
    requires p.scheduled && p.queue != []
    ensures Turns(p, ProcessQueue(p))
  {
    hide DropSubscription;
    if p.dropData.Some? {
      DropDoes(p.(queue := p.queue[1..], scheduled := false), p.dropData.value);
      assert p.discarded + [] == p.discarded;
    }
  }

  lemma EnqueueDoes(p: Persistent, item: Item)
    ensures Queues(p, Enqueue(p, item), item) && Enqueue(p, item).dropData == p.dropData
    ensures Enqueue(p, item).arrived == p.arrived
  {
  }

  lemma SameQueued(p: Persistent, m: Persistent, q: Persistent, item: Item)
    requires Queues(m, q, item) && m == p.(arrived := m.arrived, dropData := m.dropData)
    ensures Queues(p, q, item)
  {
  }

  lemma RequestDoes(p: Persistent, reason: Reason)
    ensures Does(p, Dropped(reason), EnqueueDropNotification(p, reason))
  {
    hide Queues, Enqueue;
    var m := p.(dropData := Some(reason));
    EnqueueDoes(m, DropMarker);
    SameQueued(p, m, Enqueue(m, DropMarker), DropMarker);
  }

  lemma AppearedDoes(p: Persistent, id: nat)
    ensures Does(p, EventAppeared(id), OnEventAppeared(p, id))
  {
    hide Queues, Enqueue;
    var m := p.(arrived := p.arrived + [id]);
    EnqueueDoes(m, Event(id));
    SameQueued(p, m, Enqueue(m, Event(id)), Event(id));
  }

  lemma EndDoes(p: Persistent)
    requires p.inFlight.Some?
    ensures Ends(p, HandlerSucceeded(p), true) && Ends(p, HandlerFailed(p), false)
  {
    assert p.drops + [] == p.drops && p.acked + [] == p.acked;
  }

  /** Every input does what it is there for. */
  lemma ReactDoes(p: Persistent, input: Input)
    ensures Does(p, input, React(p, input))
  {
    hide ProcessQueue, HandlerSucceeded, HandlerFailed, EnqueueDropNotification, OnEventAppeared, Turns, Ends, Queues;
    match input
    case SubscriptionStarted =>
    case EventAppeared(id) => AppearedDoes(p, id);
    case Dropped(reason) => RequestDoes(p, reason);
    case Stop => RequestDoes(p, UserInitiated);
    case Turn =>
      if p.scheduled && p.queue != [] {
        TurnDoes(p);
      } else if p.scheduled {
        EmptyTurn(p);
      }
    case _ => if p.inFlight.Some? { EndDoes(p); }
  }

  lemma EmptyTurn(p: Persistent)
    requires p.scheduled && p.queue == []
    ensures ProcessQueue(p) == p.(isProcessing := false, scheduled := false)
  {
  }

  /**
   * A stop of a running subscription is told to its owner on the next turn of the queue: at once, or when the handler
   * that is running is done, or else the failure of that handler is told.
   */
  lemma StopIsTold(p: Persistent)
    requires Orderly(p) && !p.isDropped && p.dropData.None? && !p.stuck && (p.autoAck ==> p.active)
    ensures var q := React(p, Stop);
            && q.scheduled != q.inFlight.Some?
            && (q.scheduled ==> React(q, Turn).drops == [UserInitiated])
            && (q.inFlight.Some? ==>
                  React(React(q, Fulfilled), Turn).drops == [UserInitiated]
                  && React(q, Rejected).drops == [EventHandlerException])
  {
    hide React, InOrder, Acknowledged, Succeeded, Ids, EventIds;
    var q := React(p, Stop);
    ReactDoes(p, Stop);
    ReactDoes(q, Turn);
    ReactDoes(q, Fulfilled);
    ReactDoes(q, Rejected);
    ReactDoes(React(q, Fulfilled), Turn);
  }

  /** A failed handler drops the subscription and stops the queue; so does the turn that finds a drop asked for. */
  lemma DropStopsQueue(p: Persistent)
    requires Orderly(p)
    ensures p.inFlight.Some? ==>
              var r := HandlerFailed(p);
              !r.isProcessing && !r.scheduled && r.inFlight.None?
                  && r.drops == (if p.isDropped then p.drops else [EventHandlerException])
    ensures p.scheduled && p.queue != [] && p.dropData.Some? ==>
              var r := ProcessQueue(p);
              !r.isProcessing && !r.scheduled && r.inFlight.None?
                  && r.drops == (if p.isDropped then p.drops else [p.dropData.value])
  {
    hide InOrder, Acknowledged;
    if p.inFlight.Some? {
      FailureStops(p);
    }
    if p.scheduled && p.queue != [] && p.dropData.Some? {
      TurnStops(p);
    }
  }

  lemma FailureStops(p: Persistent)
    requires Awake(p) && DroppedOnce(p) && p.inFlight.Some?
    ensures var r := HandlerFailed(p);
            !r.isProcessing && !r.scheduled && r.inFlight.None?
                && r.drops == if p.isDropped then p.drops else [EventHandlerException]
  {
    assert !p.isDropped ==> p.drops == [];
  }

  lemma TurnStops(p: Persistent)
    requires Awake(p) && DroppedOnce(p) && p.scheduled && p.queue != [] && p.dropData.Some?
    ensures var r := ProcessQueue(p);
            !r.isProcessing && !r.scheduled && r.inFlight.None?
                && r.drops == if p.isDropped then p.drops else [p.dropData.value]
  {
    assert !p.isDropped ==> p.drops == [];
  }

  /** Once a drop has been asked for no handler starts any more, however the run goes on. */
  lemma {:induction false} NoneStartsOnceDropping(p: Persistent, inputs: seq<Input>)
    requires p.dropData.Some?
    ensures var r := ReactAll(p, inputs); r.started == p.started && r.dropData == p.dropData
  {
    hide React;
    if inputs != [] {
      NoneStartsOnceDropping(p, inputs[..|inputs| - 1]);
      QuietOnceDropping(ReactAll(p, inputs[..|inputs| - 1]), inputs[|inputs| - 1]);
    }
  }

  lemma QuietOnceDropping(p: Persistent, input: Input)
    requires p.dropData.Some?
    ensures React(p, input).started == p.started && React(p, input).dropData == p.dropData
  {
    hide ProcessQueue, HandlerSucceeded, HandlerFailed;
    if input == Turn && p.scheduled {
      QuietTurn(p);
    } else if input == Fulfilled && p.inFlight.Some? {
      QuietSuccess(p);
    } else if input == Rejected && p.inFlight.Some? {
      QuietFailure(p);
    }
  }

  lemma QuietTurn(p: Persistent)
    requires p.dropData.Some? && p.scheduled
    ensures ProcessQueue(p).started == p.started && ProcessQueue(p).dropData == p.dropData
  {
    hide DropSubscription;
    if p.queue != [] {
      QuietDrop(p.(queue := p.queue[1..], scheduled := false), p.dropData.value);
    }
  }

  lemma QuietDrop(p: Persistent, reason: Reason)
    ensures var r := DropSubscription(p, reason); r.started == p.started && r.dropData == p.dropData
  {
  }

  lemma QuietSuccess(p: Persistent)
    requires p.inFlight.Some?
    ensures HandlerSucceeded(p).started == p.started && HandlerSucceeded(p).dropData == p.dropData
  {
  }

  lemma QuietFailure(p: Persistent)
    requires p.inFlight.Some?
    ensures HandlerFailed(p).started == p.started && HandlerFailed(p).dropData == p.dropData
  {
  }

  /** A promise chain that has broken off stays so, and nothing starts any more. */
  lemma {:induction false} NoneStartsOnceStuck(p: Persistent, inputs: seq<Input>)
    requires Awake(p) && p.stuck
    ensures var r := ReactAll(p, inputs); r.started == p.started && Awake(r) && r.stuck
  {
    hide React, Awake;
    if inputs != [] {
      NoneStartsOnceStuck(p, inputs[..|inputs| - 1]);
      QuietOnceStuck(ReactAll(p, inputs[..|inputs| - 1]), inputs[|inputs| - 1]);
    }
  }

  lemma QuietOnceStuck(p: Persistent, input: Input)
    requires Awake(p) && p.stuck
    ensures var r := React(p, input); r.started == p.started && Awake(r) && r.stuck
  {
    hide ProcessQueue, HandlerSucceeded, HandlerFailed;
  }

  lemma ReactThree(p: Persistent, a: Input, b: Input, c: Input)
    ensures ReactAll(p, [a, b, c]) == React(React(React(p, a), b), c)
  {
    hide React;
    assert [a, b, c][..2] == [a, b] && [a, b][..1] == [a] && [a][..0] == [];
    assert ReactAll(p, [a]) == React(p, a);
    assert ReactAll(p, [a, b]) == React(React(p, a), b);
  }

  /**
   * Whatever the queue is doing: the handler fails if one runs, an event arrives, and the next turn starts a handler.
   */
  lemma NextStarts(p: Persistent, id: nat)
    requires Orderly(p) && p.dropData.None? && !p.stuck
    ensures |React(React(React(p, Rejected), EventAppeared(id)), Turn).started| == |p.started| + 1
  {
    hide Orderly, DropSubscription;
    var q := React(p, Rejected);
    ReactKeeps(p, Rejected);
    FailureKeepsOpen(p);
    var r := React(q, EventAppeared(id));
    ReactKeeps(q, EventAppeared(id));
    OpenQueue(r);
  }

  lemma FailureKeepsOpen(p: Persistent)
    requires Orderly(p) && p.dropData.None? && !p.stuck
    ensures var q := React(p, Rejected);
            q.dropData.None? && q.started == p.started && (q.isProcessing ==> q.scheduled)
  {
    hide InOrder, Acknowledged;
  }

  lemma OpenQueue(p: Persistent)
    requires Orderly(p) && p.dropData.None? && p.queue != []
    ensures p.queue[0].Event?
  {
    hide InOrder, Acknowledged, Awake;
  }

  /**
   * Exactly when a subscription has come to rest: in every continuation no handler starts if and only if a drop has
   * been asked for or the promise chain has broken off. A drop after a failed handler alone is neither.
   */
  lemma NoneStartsExact(p: Persistent)
    requires Orderly(p)
    ensures (forall inputs :: ReactAll(p, inputs).started == p.started) <==> p.dropData.Some? || p.stuck
  {
    hide React, ReactAll, InOrder, Awake, Acknowledged, DroppedOnce;
    if p.dropData.Some? || p.stuck {
      forall inputs ensures ReactAll(p, inputs).started == p.started {
        if p.dropData.Some? {
          NoneStartsOnceDropping(p, inputs);
        } else {
          NoneStartsOnceStuck(p, inputs);
        }
      }
    } else {
      NextStarts(p, 0);
      ReactThree(p, Rejected, EventAppeared(0), Turn);
      assert ReactAll(p, [Rejected, EventAppeared(0), Turn]).started != p.started;
    }
  }

  /**
   * The drop after a failed handler sets no drop data, so a handler may still start after the drop callback: it does on
   * the next turn that finds an event, unless something else asks for a drop before.
   */
  lemma HandlerStartsAfterDrop()
    ensures var p := ReactAll(NewPersistent(true), [SubscriptionStarted, EventAppeared(1), Turn, Rejected]);
            && p.isDropped && p.started == [1]
            && ReactAll(p, [EventAppeared(2), Turn]).started == [1, 2]
  {
    var start := NewPersistent(true);
    var a := [SubscriptionStarted, EventAppeared(1), Turn];
    assert (a + [Rejected])[..3] == a && a + [Rejected] == [SubscriptionStarted, EventAppeared(1), Turn, Rejected];
    ReactThree(start, SubscriptionStarted, EventAppeared(1), Turn);
    var p := React(ReactAll(start, a), Rejected);
    assert ReactAll(start, a + [Rejected]) == p;
    assert [EventAppeared(2), Turn][..1] == [EventAppeared(2)] && [EventAppeared(2)][..0] == [];
    assert ReactAll(p, [EventAppeared(2)]) == React(p, EventAppeared(2));
  }
}

/** A persistent subscription as the object the source keeps. */
module PersistentSubscriptionObjects {
  import opened PersistentSubscriptions
  import opened Wrappers

  lemma NewIsOrderly(autoAck: bool)
    ensures Orderly(NewPersistent(autoAck))
  {
    assert Ids([]) == [];
  }

  /** What has been started and acknowledged stays so, and one more handler starts at most. */
  ghost predicate Advances(p: Persistent, q: Persistent) {
    p.started <= q.started && |q.started| <= |p.started| + 1 && p.acked <= q.acked
  }

  lemma EnqueueAdvances(p: Persistent, item: Item)
    ensures var q := PersistentSubscriptions.Enqueue(p, item); q.started == p.started && q.acked == p.acked
  {
  }

  lemma DropAdvances(p: Persistent, reason: Reason)
    ensures var q := PersistentSubscriptions.DropSubscription(p, reason); q.started == p.started && q.acked == p.acked
  {
  }

  lemma NotifiedAdvances(p: Persistent, reason: Reason)
    ensures Advances(p, EnqueueDropNotification(p, reason))
  {
    hide PersistentSubscriptions.Enqueue;
    EnqueueAdvances(p.(dropData := Some(reason)), DropMarker);
  }

  lemma AppearedAdvances(p: Persistent, id: nat)
    ensures Advances(p, PersistentSubscriptions.OnEventAppeared(p, id))
  {
    hide PersistentSubscriptions.Enqueue;
    EnqueueAdvances(p.(arrived := p.arrived + [id]), Event(id));
  }

  lemma TurnAdvances(p: Persistent)
    requires p.scheduled
    ensures Advances(p, PersistentSubscriptions.ProcessQueue(p))
  {
    hide PersistentSubscriptions.DropSubscription;
    if p.queue != [] && p.dropData.Some? {
      DropAdvances(p.(queue := p.queue[1..], scheduled := false), p.dropData.value);
    }
  }

  lemma SucceededAdvances(p: Persistent)
    requires p.inFlight.Some?
    ensures Advances(p, PersistentSubscriptions.HandlerSucceeded(p))
  {
  }

  lemma FailedAdvances(p: Persistent)
    requires p.inFlight.Some?
    ensures Advances(p, PersistentSubscriptions.HandlerFailed(p))
  {
    hide PersistentSubscriptions.DropSubscription;
    DropAdvances(p.(inFlight := None, outcomes := p.outcomes + [Outcome(p.inFlight.value, false)]),
        EventHandlerException);
  }

  lemma StartAdvances(p: Persistent)
    ensures Advances(p, p.(active := true)) && Advances(p, p)
  {
  }

  lemma ReactAdvances(p: Persistent, input: Input)
    ensures Advances(p, PersistentSubscriptions.React(p, input))
  {
    hide Advances, PersistentSubscriptions.OnEventAppeared, EnqueueDropNotification,
      PersistentSubscriptions.ProcessQueue, PersistentSubscriptions.HandlerSucceeded,
      PersistentSubscriptions.HandlerFailed;
    StartAdvances(p);
    match input
    case SubscriptionStarted =>
    case EventAppeared(id) => AppearedAdvances(p, id);
    case Dropped(reason) => NotifiedAdvances(p, reason);
    case Stop => NotifiedAdvances(p, UserInitiated);
    case Turn => if p.scheduled { TurnAdvances(p); }
    case Fulfilled => if p.inFlight.Some? { SucceededAdvances(p); }
    case Rejected => if p.inFlight.Some? { FailedAdvances(p); }
  }

  lemma DroppedOnceOf(p: Persistent)
    requires Orderly(p)
    ensures |p.drops| <= 1
  {
    hide InOrder, Awake, Acknowledged;
  }

  class EventStorePersistentSubscription {
    const autoAck: bool
    var active: bool
    var dropData: Option<Reason>
    var queue: seq<Item>
    var isProcessing: bool
    var isDropped: bool
    var scheduled: bool
    var inFlight: Option<nat>
    var stuck: bool
    /** What the subscription has seen and done so far. */
    ghost var arrived: seq<nat>
    var started: seq<nat>
    ghost var discarded: seq<nat>
    ghost var outcomes: seq<Outcome>
    var acked: seq<nat>
    var drops: seq<Reason>
    var unsubscribes: nat

    ghost predicate Valid()
      reads this
    {
      Orderly(State())
    }

    ghost function State(): Persistent
      reads this
    {
      Persistent(autoAck, active, dropData, queue, isProcessing, isDropped, scheduled, inFlight, stuck,
                 arrived, started, discarded, outcomes, acked, drops, unsubscribes)
    }

    constructor (autoAck: bool)
      ensures Valid() && State() == NewPersistent(autoAck)
    {
      this.autoAck := autoAck;
      active, dropData, queue, isProcessing, isDropped := false, None, [], false, false;
      scheduled, inFlight, stuck := false, None, false;
      arrived, started, discarded, outcomes, acked, drops, unsubscribes := [], [], [], [], [], [], 0;
      new;
      NewIsOrderly(autoAck);
    }

    /**
     * Whatever happens to the subscription: handlers start one at a time and in the order the events arrived, exactly
     * the successful ones are acknowledged, the drop is told once, and after a request for it no handler starts.
     */
    method React(input: Input)
      requires Valid()
      modifies this
      ensures Valid() && State() == PersistentSubscriptions.React(old(State()), input)
      ensures Does(old(State()), input, State()) && Advances(old(State()), State()) && |drops| <= 1
      ensures old(dropData).Some? ==> started == old(started)
    {
      hide Orderly, Advances, Does, PersistentSubscriptions.OnEventAppeared, EnqueueDropNotification,
        PersistentSubscriptions.ProcessQueue, PersistentSubscriptions.HandlerSucceeded,
        PersistentSubscriptions.HandlerFailed;
      ReactDoes(State(), input);
      ReactAdvances(State(), input);
      if dropData.Some? {
        QuietOnceDropping(State(), input);
      }
      match input {
        case SubscriptionStarted => SubscriptionStarted();
        case EventAppeared(id) => OnEventAppeared(id);
        case Dropped(reason) => EnqueueSubscriptionDropNotification(reason);
        case Stop => Stop();
        case Turn => if scheduled { ProcessQueue(); }
        case Fulfilled => if inFlight.Some? { HandlerSucceeded(); }
        case Rejected => if inFlight.Some? { HandlerFailed(); }
      }
      DroppedOnceOf(State());
    }

    method SubscriptionStarted()
      requires Valid()
      modifies this
      ensures Valid() && State() == PersistentSubscriptions.React(old(State()), Input.SubscriptionStarted)
    {
      hide Orderly;
      ActiveKeeps(State());
      active := true;
    }

    method Enqueue(item: Item)
      modifies this
      ensures State() == PersistentSubscriptions.Enqueue(old(State()), item)
    {
      queue := queue + [item];
      if !isProcessing {
        isProcessing := true;
        scheduled := true;
      }
    }

    method OnEventAppeared(id: nat)
      requires Valid()
      modifies this
      ensures Valid() && State() == PersistentSubscriptions.OnEventAppeared(old(State()), id)
    {
      hide Orderly;
      AppearedKeeps(State(), id);
      arrived := arrived + [id];
      Enqueue(Event(id));
    }

    method EnqueueSubscriptionDropNotification(reason: Reason)
      requires Valid()
      modifies this
      ensures Valid() && State() == EnqueueDropNotification(old(State()), reason)
    {
      hide Orderly;
      NotifiedKeeps(State(), reason);
      if dropData.None? {
        dropData := Some(reason);
        Enqueue(DropMarker);
      }
    }

    method Stop()
      requires Valid()
      modifies this
      ensures Valid() && State() == EnqueueDropNotification(old(State()), UserInitiated)
    {
      hide Orderly;
      EnqueueSubscriptionDropNotification(UserInitiated);
    }

    method DropSubscription(reason: Reason)
      modifies this
      ensures State() == PersistentSubscriptions.DropSubscription(old(State()), reason)
    {
      if !isDropped {
        isDropped := true;
        if active {
          unsubscribes := unsubscribes + 1;
        }
        drops := drops + [reason];
      }
    }

    /** The drop data is there: the drop happens, and what was taken from the queue is not handled. */
    method DropNow(ev: Item)
      requires dropData.Some?
      modifies this
      ensures var r := PersistentSubscriptions.DropSubscription(old(State()),
              old(dropData).value).(isProcessing := false);
              State() == if ev.Event? then r.(discarded := old(discarded) + [ev.id]) else r
    {
      DropSubscription(dropData.value);
      isProcessing := false;
      if ev.Event? {
        discarded := discarded + [ev.id];
      }
    }

    method StartHandler(id: nat)
      modifies this
      ensures State() == old(State()).(inFlight := Some(id), started := old(started) + [id])
    {
      inFlight := Some(id);
      started := started + [id];
    }

    method ProcessQueue()
      requires Valid() && scheduled
      modifies this
      ensures Valid() && State() == PersistentSubscriptions.ProcessQueue(old(State()))
    {
      hide Orderly, PersistentSubscriptions.DropSubscription;
      TurnKeeps(State());
      if queue == [] {
        isProcessing, scheduled := false, false;
        return;
      }
      var ev := Shift();
      if ev.DropMarker? && dropData.None? {
        stuck := true;
      } else if ev.DropMarker? || dropData.Some? {
        DropNow(ev);
      } else {
        StartHandler(ev.id);
      }
    }

    method Shift() returns (ev: Item)
      requires queue != []
      modifies this
      ensures ev == old(queue)[0] && State() == old(State()).(queue := old(queue)[1..], scheduled := false)
    {
      ev := queue[0];
      queue := queue[1..];
      scheduled := false;
    }

    method HandlerSucceeded()
      requires Valid() && inFlight.Some?
      modifies this
      ensures Valid() && State() == PersistentSubscriptions.HandlerSucceeded(old(State()))
    {
      hide Orderly;
      SucceededKeeps(State());
      var id := EndHandler(true);
      if autoAck {
        if !active {
          stuck := true;
          return;
        }
        acked := acked + [id];
      }
      scheduled := true;
    }

    method EndHandler(ok: bool) returns (id: nat)
      requires inFlight.Some?
      modifies this
      ensures id == old(inFlight).value
      ensures State() == old(State()).(inFlight := None, outcomes := old(outcomes) + [Outcome(id, ok)])
    {
      id := inFlight.value;
      outcomes := outcomes + [Outcome(id, ok)];
      inFlight := None;
    }

    method HandlerFailed()
      requires Valid() && inFlight.Some?
      modifies this
      ensures Valid() && State() == PersistentSubscriptions.HandlerFailed(old(State()))
    {
      hide Orderly, PersistentSubscriptions.DropSubscription;
      FailedKeeps(State());
      var _ := EndHandler(false);
      DropSubscription(EventHandlerException);
      isProcessing := false;
    }
  }
}
