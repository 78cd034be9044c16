/** What the subscriptions manager does to its collections, as functions on values. */
module SubscriptionScheduling {
  import opened Hashes
  import opened Picking
  import opened SubscriptionOperations
  import opened Wrappers
  import OperationScheduling

  type Settings = OperationScheduling.Settings

  datatype SubItem = SubItem(
    operation: SubOperation, maxRetries: int, timeout: int, correlationId: nat, retryCount: nat, lastUpdated: int,
    isSubscribed: bool, connectionId: Option<nat>)

  /**
   * Every operation belongs to one item, or to `released` once the manager has let go of it: there it may still run
   * queued actions. `nextId` is where unused correlation ids come from.
   */
  datatype Subs = Subs(
    active: Table<nat, SubItem>, waiting: seq<SubItem>, retryPending: seq<SubItem>, released: seq<SubOperation>,
        nextId: nat)

  function NewSubs(): Subs { Subs(Table([], 0), [], [], [], 0) }

  function NewSubItem(m: Subs, id: nat, maxRetries: int, timeout: int, now: int): SubItem {
    SubItem(NewSubOperation(id), maxRetries, timeout, m.nextId, 0, now, false, None)
  }

  function EnqueueSubscription(m: Subs, item: SubItem): Subs { m.(waiting := m.waiting + [item]) }

  function Release(m: Subs, op: SubOperation): Subs { m.(released := m.released + [op]) }

  function RemoveSubscription(m: Subs, item: SubItem): Subs { m.(active := Removed(m.active, item.correlationId)) }

  /** A drop asked for by the manager. */
  function DropFor(op: SubOperation, reason: DropReason): SubOperation { DropSubscription(op, reason, true,
      Omitted).op }

  function ScheduleSubscriptionRetry(m: Subs, item: SubItem): Subs {
    var r := RemoveSubscription(m, item);
    if item.maxRetries >= 0
        && item.retryCount >= item.maxRetries then Release(r, DropFor(item.operation, SubscribingError))
    else r.(retryPending := r.retryPending + [item])
  }

  function StartSubscription(m: Subs, item: SubItem, conn: nat, now: int): Subs {
    if item.isSubscribed then Release(RemoveSubscription(m, item), item.operation)
    else
      var renewed := item.(correlationId := m.nextId, connectionId := Some(conn), lastUpdated := now);
      var r := m.(nextId := m.nextId + 1);
      if CanSubscribe(item.operation) then
        r.(active := Added(r.active, m.nextId, renewed.(operation := Subscribing(item.operation, m.nextId, conn))))
      else Release(RemoveSubscription(r.(active := Added(r.active, m.nextId, renewed)), renewed), item.operation)
  }

  function ReleaseAll(m: Subs, items: seq<SubItem>, reason: DropReason): Subs
    decreases |items|
  {
    if items == [] then m
    else
      ReleaseAll(
        Release(RemoveSubscription(m, items[0]), DropFor(items[0].operation, reason)), items[1..], reason)
  }

  function RetryAll(m: Subs, items: seq<SubItem>): Subs
    decreases |items|
  {
    if items == [] then m else RetryAll(ScheduleSubscriptionRetry(m, items[0]), items[1..])
  }

  function RestartAll(m: Subs, items: seq<SubItem>, conn: nat, now: int): Subs
    decreases |items|
  {
    if items == [] then m
    else RestartAll(StartSubscription(m, items[0].(retryCount := items[0].retryCount + 1), conn, now), items[1..],
        conn, now)
  }

  function StartWaiting(m: Subs, conn: nat, now: int): Subs
    decreases |m.waiting|
  {
    if m.waiting == [] then m
    else StartWaiting(StartSubscription(m.(waiting := m.waiting[1..]), m.waiting[0], conn, now), conn, now)
  }

  predicate Purged(item: SubItem, conn: nat) { item.isSubscribed && item.connectionId == Some(conn) }

  function PurgeSubscribedAndDropped(m: Subs, conn: nat): Subs {
    ReleaseAll(m, Filter(Items(m.active.entries), (x: SubItem) => Purged(x, conn)), ConnectionClosed)
  }

  predicate Unanswered(item: SubItem, s: Settings, conn: nat, now: int) {
    && !item.isSubscribed && item.connectionId == Some(conn)
    && item.timeout > 0 && now - item.lastUpdated > s.operationTimeout
  }

  predicate ToRetry(item: SubItem, s: Settings, conn: nat, now: int) {
    && !item.isSubscribed
    && (item.connectionId != Some(conn) || (Unanswered(item, s, conn, now) && !s.failOnNoServerResponse))
  }

  predicate ToRemove(item: SubItem, s: Settings, conn: nat, now: int) {
    Unanswered(item, s, conn, now) && s.failOnNoServerResponse
  }

  function Swept(m: Subs, s: Settings, conn: nat, now: int): Subs {
    var items := Items(m.active.entries);
    ReleaseAll(RetryAll(m, Filter(items, (x: SubItem) => ToRetry(x, s, conn, now))),
               Filter(items, (x: SubItem) => ToRemove(x, s, conn, now)), SubscribingError)
  }

  function Restarted(m: Subs, conn: nat, now: int): Subs {
    RestartAll(m, m.retryPending, conn, now).(retryPending := [])
  }

  function CheckTimeoutsAndRetry(m: Subs, s: Settings, conn: nat, now: int): Subs {
    StartWaiting(Restarted(Swept(m, s, conn, now), conn, now), conn, now)
  }

  function DropAll(items: seq<SubItem>): seq<SubOperation> {
    seq(|items|, i requires 0 <= i < |items| => DropFor(items[i].operation, ConnectionClosed))
  }

  function CleanUp(m: Subs): Subs {
    Subs(Table([], 0), [], [],
         m.released + DropAll(Items(m.active.entries)) + DropAll(m.waiting) + DropAll(m.retryPending), m.nextId)
  }

  /** The item of an active subscription changes where it is; the table's length is not touched. */
  function Updated(m: Subs, item: SubItem): Subs {
    m.(active := m.active.(entries := Assigned(m.active.entries, item.correlationId, item)))
  }

  /** What the handler makes of a package for an active subscription, given what its inspection said. */
  function Resolved(m: Subs, item: SubItem, r: SubInspected): Subs {
    var left := item.(operation := r.op);
    match r.decision
    case DoNothing => Updated(m, left)
    case Subscribed => Updated(m, left.(isSubscribed := true))
    case EndOperation => Release(RemoveSubscription(m, left), r.op)
    case Retry => ScheduleSubscriptionRetry(m, left)
    case Reconnect(_, _) => ScheduleSubscriptionRetry(m, left)
  }

  /** Where an operation is that the user or its action queue touches: a waiting one is touched by neither. */
  datatype Place = ActivePlace(key: nat) | ReleasedPlace(index: nat)

  datatype Touch = Turn(async: bool) | Settle | UserUnsubscribes(connection: Option<nat>)

  function Touched(op: SubOperation, touch: Touch): SubOperation {
    match touch
    case Turn(async) => if op.scheduled then ExecuteActions(op, async) else op
    case Settle => if op.inFlight then ActionSettled(op) else op
    case UserUnsubscribes(connection) => if op.subscribed then UnsubscribeByUser(op, connection) else op
  }

  function TouchedAt(m: Subs, place: Place, touch: Touch): Subs {
    match place
    case ActivePlace(key) =>
      var item := Get(m.active.entries, key);
      if item.None? then m else Updated(m, item.value.(operation := Touched(item.value.operation, touch)))
    case ReleasedPlace(i) =>
      if i < |m.released| then m.(released := m.released[i := Touched(m.released[i], touch)]) else m
  }
}
