/** What the operations manager does to its collections, as functions on values. */
module OperationScheduling {
  import opened Hashes
  import opened Operations
  import opened Wrappers

  /** An operation with its bookkeeping; the connection is unknown until the operation is first sent. */
  datatype Item = Item(
    seqNo: nat, operation: Operation, maxRetries: int, timeout: int, correlationId: nat, retryCount: nat,
    lastUpdated: int, connectionId: Option<nat>)

  datatype Settings = Settings(maxConcurrentItems: int, operationTimeout: int, failOnNoServerResponse: bool)

  /** An operation's package handed to a connection. */
  datatype Sent = Sent(op: nat, correlationId: nat, connectionId: nat)

  /** `nextSeqNo` and `nextId` are where unused sequence numbers and correlation ids come from. */
  datatype Ops = Ops(
    active: Table<nat, Item>, waiting: seq<Item>, retryPending: seq<Item>, total: int,
    nextSeqNo: nat, nextId: nat, callbacks: seq<Callback>, wire: seq<Sent>)

  function NewOps(): Ops { Ops(Table([], 0), [], [], 0, 0, 0, [], []) }

  function Refreshed(o: Ops): Ops { o.(total := o.active.length + |o.waiting|) }

  function NewItem(o: Ops, id: nat, maxRetries: int, timeout: int, now: int): Item {
    Item(o.nextSeqNo, NewOperation(id), maxRetries, timeout, o.nextId, 0, now, None)
  }

  function Numbered(o: Ops): Ops { o.(nextSeqNo := o.nextSeqNo + 1, nextId := o.nextId + 1) }

  function Failure(item: Item, reason: string): Callback { Callback(item.operation.id, Failed(reason)) }

  function Failures(items: seq<Item>, reason: string): seq<Callback> {
    seq(|items|, i requires 0 <= i < |items| => Failure(items[i], reason))
  }

  function CleanUp(o: Ops): Ops {
    o.(callbacks := o.callbacks + Failures(Items(o.active.entries), "closed") + Failures(o.waiting, "closed")
                    + Failures(o.retryPending, "closed"),
       active := Table([], 0), waiting := [], retryPending := [], total := 0)
  }

  function EnqueueOperation(o: Ops, item: Item): Ops { o.(waiting := o.waiting + [item]) }

  function Stamped(item: Item, conn: nat, now: int): Item { item.(connectionId := Some(conn), lastUpdated := now) }

  function ScheduleOperation(o: Ops, s: Settings, item: Item, conn: nat, now: int): (r: Ops)
    ensures r.retryPending == o.retryPending && r.callbacks == o.callbacks && r.nextId == o.nextId
    ensures o.active.length < s.maxConcurrentItems ==> r.waiting == o.waiting
  {
    if o.active.length >= s.maxConcurrentItems then Refreshed(o.(waiting := o.waiting + [item]))
    else
      Refreshed(o.(active := Added(o.active, item.correlationId, Stamped(item, conn, now)),
                   wire := o.wire + [Sent(item.operation.id, item.correlationId, conn)]))
  }

  function ScheduleWaitingOperations(o: Ops, s: Settings, conn: nat, now: int): Ops
    decreases |o.waiting|
  {
    if |o.waiting| > 0 && o.active.length < s.maxConcurrentItems then
      ScheduleWaitingOperations(
        ScheduleOperation(o.(waiting := o.waiting[1..]), s, o.waiting[0], conn, now), s, conn, now)
    else Refreshed(o)
  }

  function RemoveOperation(o: Ops, item: Item): Ops {
    Refreshed(o.(active := Removed(o.active, item.correlationId)))
  }

  predicate LimitReached(item: Item) { item.maxRetries >= 0 && item.retryCount >= item.maxRetries }

  function ScheduleOperationRetry(o: Ops, item: Item): Ops {
    var r := RemoveOperation(o, item);
    if LimitReached(item) then r.(callbacks := r.callbacks + [Failure(item, "Retry limit reached")])
    else r.(retryPending := r.retryPending + [item])
  }

  datatype Verdict = Keep | Resend | Expire

  function Check(item: Item, s: Settings, conn: nat, now: int): Verdict {
    if item.connectionId != Some(conn) then Resend
    else if item.timeout > 0 && now - item.lastUpdated > s.operationTimeout then
      if s.failOnNoServerResponse then Expire else Resend
    else Keep
  }

  function Select(items: seq<Item>, v: Verdict, s: Settings, conn: nat, now: int): seq<Item> {
    if items == [] then []
    else
      var front, last := Select(items[..|items| - 1], v, s, conn, now), items[|items| - 1];
      if Check(last, s, conn, now) == v then front + [last] else front
  }

  function RetryAll(o: Ops, items: seq<Item>): Ops
    decreases |items|
  {
    if items == [] then o else RetryAll(ScheduleOperationRetry(o, items[0]), items[1..])
  }

  function RemoveAll(o: Ops, items: seq<Item>): Ops
    decreases |items|
  {
    if items == [] then o else RemoveAll(RemoveOperation(o, items[0]), items[1..])
  }

  function Inserted(sorted: seq<Item>, item: Item): seq<Item> {
    if sorted == [] || sorted[|sorted| - 1].seqNo <= item.seqNo then sorted + [item]
    else Inserted(sorted[..|sorted| - 1], item) + [sorted[|sorted| - 1]]
  }

  /** The stable sort by sequence number. */
  function Sorted(items: seq<Item>): seq<Item> {
    if items == [] then [] else Inserted(Sorted(items[..|items| - 1]), items[|items| - 1])
  }

  function ReissueAll(o: Ops, s: Settings, items: seq<Item>, conn: nat, now: int): Ops
    decreases |items|
  {
    if items == [] then o
    else
      var item := items[0].(correlationId := o.nextId, retryCount := items[0].retryCount + 1);
      ReissueAll(ScheduleOperation(o.(nextId := o.nextId + 1), s, item, conn, now), s, items[1..], conn, now)
  }

  /** The first half of a check: expired operations fail, and those to be sent again leave the active ones. */
  function Swept(o: Ops, s: Settings, conn: nat, now: int): Ops {
    var items := Items(o.active.entries);
    var expired := Select(items, Expire, s, conn, now);
    var failed := o.(callbacks := o.callbacks + Failures(expired, "no response"));
    RemoveAll(RetryAll(failed, Select(items, Resend, s, conn, now)), expired)
  }

  function Reissued(o: Ops, s: Settings, conn: nat, now: int): Ops {
    if |o.retryPending| > 0 then
      var sorted := Sorted(o.retryPending);
      ReissueAll(o.(retryPending := sorted), s, sorted, conn, now).(retryPending := [])
    else o
  }

  function CheckTimeoutsAndRetry(o: Ops, s: Settings, conn: nat, now: int): Ops {
    ScheduleWaitingOperations(Reissued(Swept(o, s, conn, now), s, conn, now), s, conn, now)
  }

  /**
   * What the handler makes of a reply to an active operation, given what its inspection said. Every decision a
   * pending operation can reach takes it out of the active ones, so the item is not written back first.
   */
  function Resolved(o: Ops, item: Item, r: Inspected): Ops {
    var called := o.(callbacks := o.callbacks + r.calls);
    match r.decision
    case EndOperation => RemoveOperation(called, item.(operation := r.operation))
    case Retry => ScheduleOperationRetry(called, item.(operation := r.operation))
    case Reconnect(_, _) => ScheduleOperationRetry(called, item.(operation := r.operation))
    case _ => called
  }
}
