/** Positions of the $all stream, ordered by commit position and then prepare position. */
module Positions {
  datatype Position = Position(commitPosition: int, preparePosition: int) {
    function CompareTo(other: Position): int {
      if commitPosition < other.commitPosition
         || (commitPosition == other.commitPosition && preparePosition < other.preparePosition) then -1
      else if commitPosition > other.commitPosition
              || (commitPosition == other.commitPosition && preparePosition > other.preparePosition) then 1
      else 0
    }
  }

  /** The comparison is a total order. */
  lemma CompareToIsTotalOrder(a: Position, b: Position, c: Position)
    ensures a.CompareTo(b) == 0 <==> a == b
    ensures a.CompareTo(b) == -b.CompareTo(a)
    ensures a.CompareTo(b) <= 0 && b.CompareTo(c) <= 0 ==> a.CompareTo(c) <= 0
  {
  }
}

/**
 * The catch-up subscription of the client, over event numbers for one stream or over positions for $all. Promise
 * continuations and `setImmediate` calls become inputs the client reacts to, one at a time and in any order.
 */
module CatchUp {
  import opened Wrappers
  import opened Positions

  /** What orders the events of a subscription. */
  datatype Key = EventNumber(n: int) | AtPosition(p: Position)

  function Compare(a: Key, b: Key): int {
    match (a, b)
    case (EventNumber(m), EventNumber(n)) => if m < n then -1 else if m > n then 1 else 0
    case (AtPosition(p), AtPosition(q)) => p.CompareTo(q)
    case (EventNumber(_), AtPosition(_)) => -1
    case (AtPosition(_), EventNumber(_)) => 1
  }

  predicate Less(a: Key, b: Key) { Compare(a, b) < 0 }

  datatype Event = Event(key: Key, data: int)

  /** An entry of the live queue: a pushed event or the marker put there when a drop is requested. */
  datatype Item = Pushed(event: Event) | DropMarker

  datatype Reason =
    | UserInitiated | CatchUpError | EventHandlerException | ProcessingQueueOverflow | Unknown | ByServer(code: int)

  datatype Slice = Slice(events: seq<Event>, next: Key, endOfStream: bool)

  datatype ReadResult = SliceRead(slice: Slice) | StreamNotFound | Failed

  /** How far the promise chain of `_runSubscription` has come; `till` is absent in the first read. */
  datatype Run =
    | Idle
    | AwaitSlice(till: Option<Key>)
    | InSlice(rest: seq<Event>, slice: Slice, till: Option<Key>)
    | AwaitHandler(rest: seq<Event>, slice: Slice, till: Option<Key>)
    | Subscribing

  /** The activation of `_processLiveQueue` that is outstanding, if any. */
  datatype Live = Off | Scheduled | Awaiting(called: bool)

  /** One call of the user's `eventAppeared`; `returned` is false when it threw. */
  datatype Call = Call(event: Event, returned: bool)

  datatype Client = Client(
    isSubscribedToAll: bool, readBatchSize: nat, maxPushQueueSize: nat,
    nextRead: Key, lastProcessed: Key,
    liveQueue: seq<Item>, dropData: Option<Reason>,
    isProcessing: bool, isDropped: bool, shouldStop: bool, allowProcessing: bool,
    subscribed: bool, unsubscribes: nat, listeners: nat, run: Run, live: Live,
    calls: seq<Call>, drops: seq<Reason>)

  const DEFAULT_READ_BATCH_SIZE := 500
  const DEFAULT_MAX_PUSH_QUEUE_SIZE := 10000

  /** A new subscription; the checkpoint is exclusive. */
  function NewClient(isSubscribedToAll: bool, checkpoint: Option<Key>): Client {
    var (next, last) :=
      if isSubscribedToAll then
        if checkpoint.None? then (AtPosition(Position(0, 0)), AtPosition(Position(-1, -1)))
        else (checkpoint.value, checkpoint.value)
      else
        if checkpoint.Some? && checkpoint.value.EventNumber? then
          (EventNumber(checkpoint.value.n + 1), checkpoint.value)
        else (EventNumber(0), EventNumber(-1));
    Client(isSubscribedToAll, DEFAULT_READ_BATCH_SIZE, DEFAULT_MAX_PUSH_QUEUE_SIZE, next, last, [], None,
           false, false, false, false, false, 0, 0, Idle, Off, [], [])
  }

  /** The calls made so far and the cursor that filters them. */
  predicate SameDelivery(c: Client, d: Client) { d.calls == c.calls && d.lastProcessed == c.lastProcessed }

  function Flag(b: bool): nat { if b then 1 else 0 }

  /** What no input short of a reconnection changes: settings, permission to process, one drop callback per drop. */
  predicate Frame(c: Client, d: Client) {
    && d.isSubscribedToAll == c.isSubscribedToAll && d.maxPushQueueSize == c.maxPushQueueSize
    && (c.allowProcessing ==> d.allowProcessing)
    && |d.drops| + Flag(c.isDropped) == |c.drops| + Flag(d.isDropped)
  }

  predicate ReadKept(c: Client, d: Client) { d.run == c.run && d.nextRead == c.nextRead }

  predicate QueueKept(c: Client, d: Client) { d.liveQueue == c.liveQueue && d.dropData == c.dropData }

  // ---- The client's functions ----

  function RunSubscription(c: Client): (d: Client)
    ensures SameDelivery(c, d)
  {
    c.(isDropped := false, dropData := None, run := AwaitSlice(None))
  }

  function EnsureProcessingPushQueue(c: Client): (d: Client)
    ensures SameDelivery(c, d)
    ensures Frame(c, d) && QueueKept(c, d)
    ensures ReadKept(c, d)
  {
    if c.isProcessing then c else c.(isProcessing := true, live := Scheduled)
  }

  function EnqueueSubscriptionDropNotification(c: Client, reason: Reason): (d: Client)
    ensures SameDelivery(c, d)
    ensures Frame(c, d)
    ensures ReadKept(c, d)
  {
    if c.dropData.Some? then c
    else
      var c' := c.(dropData := Some(reason), liveQueue := c.liveQueue + [DropMarker]);
      if c.allowProcessing then EnsureProcessingPushQueue(c') else c'
  }

  /** The server subscription is told to end. */
  function Unsubscribe(c: Client): (d: Client)
    ensures SameDelivery(c, d)
    ensures Frame(c, d) && QueueKept(c, d)
    ensures ReadKept(c, d)
  {
    c.(unsubscribes := c.unsubscribes + 1)
  }

  function EnqueuePushedEvent(c: Client, e: Event): (d: Client)
    ensures SameDelivery(c, d)
    ensures Frame(c, d)
    ensures ReadKept(c, d)
  {
    if |c.liveQueue| >= c.maxPushQueueSize then
      Unsubscribe(EnqueueSubscriptionDropNotification(c, ProcessingQueueOverflow))
    else
      var c' := c.(liveQueue := c.liveQueue + [Pushed(e)]);
      if c.allowProcessing then EnsureProcessingPushQueue(c') else c'
  }

  function DropSubscription(c: Client, reason: Reason): (d: Client)
    ensures SameDelivery(c, d)
    ensures Frame(c, d) && QueueKept(c, d)
    ensures ReadKept(c, d)
  {
    if c.isDropped then c
    else if c.subscribed then Unsubscribe(c.(isDropped := true, drops := c.drops + [reason]))
    else c.(isDropped := true, drops := c.drops + [reason])
  }

  function StopRequested(c: Client): (d: Client)
    ensures SameDelivery(c, d)
    ensures Frame(c, d)
    ensures ReadKept(c, d)
  {
    EnqueueSubscriptionDropNotification(
      c.(listeners := if c.listeners > 0 then c.listeners - 1 else 0, shouldStop := true), UserInitiated)
  }

  /** Calls the handler for an event beyond the last processed one; a call that throws leaves the cursor alone. */
  function TryProcess(c: Client, e: Event, throws: bool): (d: Client)
    ensures Frame(c, d) && QueueKept(c, d)
    ensures ReadKept(c, d)
  {
    if Less(c.lastProcessed, e.key) then
      if throws then c.(calls := c.calls + [Call(e, false)])
      else c.(calls := c.calls + [Call(e, true)], lastProcessed := e.key)
    else c
  }

  predicate Handles(c: Client, e: Event) { Less(c.lastProcessed, e.key) }

  function FailRun(c: Client): (d: Client)
    ensures SameDelivery(c, d)
    ensures Frame(c, d) && QueueKept(c, d)
    ensures d.run.Idle? && d.nextRead == c.nextRead
  {
    DropSubscription(c, CatchUpError).(run := Idle)
  }

  /** The last continuation of the chain: report a requested stop, or start live processing. */
  function EndRun(c: Client): (d: Client)
    ensures SameDelivery(c, d)
    ensures Frame(c, d) && QueueKept(c, d)
    ensures d.run.Idle? && d.nextRead == c.nextRead
  {
    if c.shouldStop then DropSubscription(c, UserInitiated).(run := Idle)
    else EnsureProcessingPushQueue(c.(run := Idle, listeners := c.listeners + 1, allowProcessing := true))
  }

  /** After the first read subscribe, after the second go live. */
  function FinishRead(c: Client, till: Option<Key>): (d: Client)
    ensures SameDelivery(c, d)
    ensures Frame(c, d) && QueueKept(c, d)
  {
    if till.None? && !c.shouldStop then c.(run := Subscribing) else EndRun(c)
  }

  /** The stop test of the read loop: for a stream strictly past the target, for $all at or past it. */
  predicate ReadDone(isSubscribedToAll: bool, slice: Slice, till: Option<Key>) {
    if till.None? then slice.endOfStream
    else if isSubscribedToAll then Compare(slice.next, till.value) >= 0
    else Compare(slice.next, till.value) > 0
  }

  function OnReadResult(c: Client, r: ReadResult): (d: Client)
    requires c.run.AwaitSlice?
    ensures SameDelivery(c, d)
    ensures Frame(c, d) && QueueKept(c, d)
  {
    match r
    case SliceRead(slice) => c.(run := InSlice(slice.events, slice, c.run.till))
    case Failed => FailRun(c)
    case StreamNotFound =>
      if c.run.till.Some? && c.run.till.value != EventNumber(-1) then FailRun(c) else FinishRead(c, c.run.till)
  }

  /** The slice is worked off: move the read cursor and read on or stop. */
  function SliceFinished(c: Client): (d: Client)
    requires c.run.InSlice?
    ensures Frame(c, d) && QueueKept(c, d) && SameDelivery(c, d)
  {
    var c' := c.(nextRead := c.run.slice.next);
    if ReadDone(c.isSubscribedToAll, c.run.slice, c.run.till) || c.shouldStop then FinishRead(c', c.run.till)
    else c'.(run := AwaitSlice(c.run.till))
  }

  function ProcessNext(c: Client, throws: bool): (d: Client)
    requires c.run.InSlice? && c.run.rest != []
    ensures Frame(c, d) && QueueKept(c, d) && SameDelivery(TryProcess(c, c.run.rest[0], throws), d)
  {
    var InSlice(rest, slice, till) := c.run;
    var c' := TryProcess(c, rest[0], throws);
    if !Handles(c, rest[0]) then c'.(run := InSlice(rest[1..], slice, till))
    else if throws then FailRun(c')
    else c'.(run := AwaitHandler(rest[1..], slice, till))
  }

  function ProcessEvents(c: Client, throws: bool): (d: Client)
    requires c.run.InSlice?
    ensures Frame(c, d) && QueueKept(c, d)
    ensures SameDelivery(if c.run.rest == [] then c else TryProcess(c, c.run.rest[0], throws), d)
  {
    if c.run.rest == [] then SliceFinished(c) else ProcessNext(c, throws)
  }

  function OnHandlerSettled(c: Client, fulfilled: bool): (d: Client)
    requires c.run.AwaitHandler?
    ensures SameDelivery(c, d)
    ensures Frame(c, d) && QueueKept(c, d)
  {
    if fulfilled then c.(run := InSlice(c.run.rest, c.run.slice, c.run.till)) else FailRun(c)
  }

  function OnSubscribed(c: Client, till: Key): (d: Client)
    requires c.run.Subscribing?
    ensures SameDelivery(c, d)
    ensures Frame(c, d) && QueueKept(c, d)
  {
    c.(subscribed := true, run := AwaitSlice(Some(till)))
  }

  function StopLive(c: Client): (d: Client)
    ensures SameDelivery(c, d)
    ensures Frame(c, d) && QueueKept(c, d)
  {
    c.(isProcessing := false, live := Off)
  }

  function FrontEvent(q: seq<Item>): Option<Event> {
    if q != [] && q[0].Pushed? then Some(q[0].event) else None
  }

  function ProcessDropMarker(c: Client): (d: Client)
    ensures SameDelivery(c, d)
    ensures Frame(c, d)
    ensures d.liveQueue == c.liveQueue && d.dropData.Some?
  {
    var reason := if c.dropData.Some? then c.dropData.value else Unknown;
    StopLive(DropSubscription(c.(dropData := Some(reason)), reason))
  }

  function ProcessPushed(c: Client, e: Event, throws: bool): (d: Client)
    ensures SameDelivery(TryProcess(c, e, throws), d)
    ensures Frame(c, d) && QueueKept(c, d)
  {
    var c' := TryProcess(c, e, throws);
    if Handles(c, e) && throws then StopLive(DropSubscription(c', EventHandlerException))
    else c'.(live := Awaiting(Handles(c, e)))
  }

  function Shift(c: Client): (d: Client)
    requires c.liveQueue != []
    ensures SameDelivery(c, d)
    ensures Frame(c, d)
  {
    c.(liveQueue := c.liveQueue[1..])
  }

  function ProcessLiveQueue(c: Client, throws: bool): (d: Client)
    ensures Frame(c, d)
  {
    if c.liveQueue == [] then StopLive(c)
    else
      match c.liveQueue[0]
      case DropMarker => ProcessDropMarker(Shift(c))
      case Pushed(e) => ProcessPushed(Shift(c), e, throws)
  }

  lemma ProcessLiveQueueDelivery(c: Client, throws: bool)
    ensures SameDelivery(if FrontEvent(c.liveQueue).None? then c
                         else TryProcess(c, FrontEvent(c.liveQueue).value, throws), ProcessLiveQueue(c, throws))
  {
    hide ProcessDropMarker, ProcessPushed, Less;
  }

  function OnLiveSettled(c: Client, fulfilled: bool, throws: bool): (d: Client)
    ensures Frame(c, d)
  {
    if fulfilled then ProcessLiveQueue(c, throws) else StopLive(DropSubscription(c, EventHandlerException))
  }

  /** Everything that can happen to a client. `throws` says whether a handler call made on the way throws. */
  datatype Input =
    | ReadArrived(result: ReadResult)
    | SliceContinues(throws: bool)
    | HandlerSettled(fulfilled: bool)
    | SubscribeConfirmed(till: Key)
    | SubscribeFailed
    | EventPushed(event: Event)
    | ServerDropped(reason: Reason)
    | StopCalled
    | LiveContinues(throws: bool)
    | LiveSettled(settled: bool, throwsNext: bool)
    | Reconnected

  /** An input the client is not waiting for has no effect. */
  function React(c: Client, i: Input): Client {
    match i
    case ReadArrived(r) => if c.run.AwaitSlice? then OnReadResult(c, r) else c
    case SliceContinues(throws) => if c.run.InSlice? then ProcessEvents(c, throws) else c
    case HandlerSettled(f) => if c.run.AwaitHandler? then OnHandlerSettled(c, f) else c
    case SubscribeConfirmed(till) => if c.run.Subscribing? then OnSubscribed(c, till) else c
    case SubscribeFailed => if c.run.Subscribing? then FailRun(c) else c
    case EventPushed(e) => EnqueuePushedEvent(c, e)
    case ServerDropped(reason) => EnqueueSubscriptionDropNotification(c, reason)
    case StopCalled => StopRequested(c)
    case LiveContinues(throws) => if c.live.Scheduled? then ProcessLiveQueue(c, throws) else c
    case LiveSettled(f, throws) =>
      if c.live.Awaiting? && (f || c.live.called) then OnLiveSettled(c, f, throws) else c
    case Reconnected => if c.listeners > 0 then RunSubscription(c.(listeners := c.listeners - 1)) else c
  }

  function ReactAll(c: Client, inputs: seq<Input>): Client
    decreases |inputs|
  {
    if inputs == [] then c else ReactAll(React(c, inputs[0]), inputs[1..])
  }

  // ---- Order of delivery, with no assumption about the server ----

  /** Every call is for an event beyond all events whose calls have returned, and the cursor is the last of those. */
  ghost predicate Increasing(calls: seq<Call>, lastProcessed: Key) {
    && (forall i, j :: 0 <= i < j < |calls| && calls[i].returned ==> Less(calls[i].event.key, calls[j].event.key))
    && (forall i :: 0 <= i < |calls| && calls[i].returned ==> !Less(lastProcessed, calls[i].event.key))
  }

  /** The event an input makes the client look at. */
  function Attempt(c: Client, i: Input): Option<Event> {
    match i
    case SliceContinues(_) => if c.run.InSlice? && c.run.rest != [] then Some(c.run.rest[0]) else None
    case LiveContinues(_) => if c.live.Scheduled? then FrontEvent(c.liveQueue) else None
    case LiveSettled(f, _) => if c.live.Awaiting? && f then FrontEvent(c.liveQueue) else None
    case _ => None
  }

  predicate Throws(i: Input) {
    match i
    case SliceContinues(t) => t
    case LiveContinues(t) => t
    case LiveSettled(_, t) => t
    case _ => false
  }

  /** An input touches the calls and the cursor only by trying one event. */
  lemma ReactCalls(c: Client, i: Input)
    ensures var (d, a) := (React(c, i), Attempt(c, i));
            if a.None? then SameDelivery(c, d)
            else SameDelivery(TryProcess(c, a.value, Throws(i)), d)
  {
    hide Less, TryProcess, ProcessLiveQueue, ProcessEvents, OnReadResult, EnqueuePushedEvent,
      EnqueueSubscriptionDropNotification, StopRequested, FailRun, DropSubscription, Frame, QueueKept, ReadKept;
    ProcessLiveQueueDelivery(c, Throws(i));
  }

  lemma TryProcessIncreasing(c: Client, e: Event, throws: bool)
    requires Increasing(c.calls, c.lastProcessed)
    ensures var d := TryProcess(c, e, throws); Increasing(d.calls, d.lastProcessed) && c.calls <= d.calls
  {
  }

  /**
   * Across any inputs whatever, reconnections, drops, overflow and overlapping catch-up and live processing included:
   * no event is handed over again, and none out of order, after a handler call for it or a later event has returned.
   */
  lemma {:induction false} DeliveryStrictlyIncreases(c: Client, inputs: seq<Input>)
    requires Increasing(c.calls, c.lastProcessed)
    ensures var d := ReactAll(c, inputs); Increasing(d.calls, d.lastProcessed) && c.calls <= d.calls
    decreases |inputs|
  {
    hide React, Increasing, TryProcess;
    if inputs != [] {
      ReactCalls(c, inputs[0]);
      if Attempt(c, inputs[0]).Some? {
        TryProcessIncreasing(c, Attempt(c, inputs[0]).value, Throws(inputs[0]));
      }
      DeliveryStrictlyIncreases(React(c, inputs[0]), inputs[1..]);
    }
  }
}
