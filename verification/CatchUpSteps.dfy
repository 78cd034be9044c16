/** What each input makes of a catch-up subscription: the chain of reads, the live queue, and requests for a drop. */
module CatchUpSteps {
  import opened Wrappers
  import opened CatchUp
  import opened CatchUpCoherence

  // ---- Requests for a drop, pushes, and the wake-up ----

  /** With live processing allowed a sleeping queue wakes up, and one that is busy is left alone. */
  ghost predicate Wakes(c: Client, d: Client) {
    FlagsOk(c) ==> d.live == if c.allowProcessing && c.live.Off? then Scheduled else c.live
  }

  ghost predicate Queued(c: Client, d: Client, item: Item) { d.liveQueue == c.liveQueue + [item] && Wakes(c, d) }

  /** The first request for a drop in a run sets its reason and queues the marker; any other changes neither. */
  ghost predicate Requested(c: Client, d: Client, reason: Reason) {
    if c.dropData.Some? then d.dropData == c.dropData && d.liveQueue == c.liveQueue && d.live == c.live
    else d.dropData == Some(reason) && Queued(c, d, DropMarker)
  }

  lemma RequestQueues(c: Client, reason: Reason)
    ensures var d := EnqueueSubscriptionDropNotification(c, reason);
            Requested(c, d, reason) && d.listeners == c.listeners && d.shouldStop == c.shouldStop
  {
  }

  /**
   * What the server and the owner do to the live queue: an event is queued while there is room, and otherwise asks
   * for a drop, as do the end of the server subscription and a stop, which also ends the wait for a reconnection.
   */
  lemma QueueExact(c: Client, i: Input)
    ensures i.EventPushed? && |c.liveQueue| < c.maxPushQueueSize ==>
              Queued(c, React(c, i), Pushed(i.event)) && React(c, i).dropData == c.dropData
    ensures i.EventPushed? && |c.liveQueue| >= c.maxPushQueueSize ==> Requested(c, React(c, i), ProcessingQueueOverflow)
    ensures i.ServerDropped? ==> Requested(c, React(c, i), i.reason)
    ensures i.StopCalled? ==>
              var d := React(c, i);
              Requested(c, d, UserInitiated) && d.shouldStop && (c.listeners <= 1 ==> d.listeners == 0)
  {
    hide EnqueueSubscriptionDropNotification, FlagsOk;
    match i
    case EventPushed(e) =>
      RequestQueues(c, ProcessingQueueOverflow);
      assert FlagsOk(c) ==> (c.isProcessing <==> !c.live.Off?) by { Processing(c); }
    case ServerDropped(reason) => RequestQueues(c, reason);
    case StopCalled =>
      var m := c.(listeners := if c.listeners > 0 then c.listeners - 1 else 0, shouldStop := true);
      RequestQueues(m, UserInitiated);
      assert FlagsOk(c) ==> FlagsOk(m) by { StillFlagged(c); }
    case _ =>
  }

  lemma Processing(c: Client)
    ensures FlagsOk(c) ==> (c.isProcessing <==> !c.live.Off?)
  {
  }

  lemma StillFlagged(c: Client)
    ensures FlagsOk(c) ==> FlagsOk(c.(listeners := if c.listeners > 0 then c.listeners - 1 else 0, shouldStop := true))
  {
  }

  // ---- The chain ----

  /** A read has got as far as it has to: to the end at first, then past the confirmed event, of $all up to it. */
  predicate ReadEnough(c: Client, slice: Slice, till: Option<Key>) {
    match till
    case None => slice.endOfStream
    case Some(key) => Less(key, slice.next) || (c.isSubscribedToAll && slice.next == key)
  }

  /** A read is over: the first is followed by the subscription, the second by live processing, and both by a stop. */
  ghost predicate ReadOver(c: Client, d: Client, till: Option<Key>) {
    if c.shouldStop then d.run == Idle && d.listeners == c.listeners && d.live == c.live
    else if till.None? then d.run == Subscribing && d.listeners == c.listeners && d.live == c.live
    else
      && d.run == Idle && d.listeners == c.listeners + 1 && d.allowProcessing
      && (FlagsOk(c) ==> d.live == if c.live.Off? then Scheduled else c.live)
  }

  ghost predicate SameQueue(c: Client, d: Client) {
    d.liveQueue == c.liveQueue && d.dropData == c.dropData && d.lastProcessed == c.lastProcessed && d.calls == c.calls
  }

  /** The answer to a read. */
  ghost predicate ReadDoes(c: Client, r: ReadResult, d: Client)
    requires c.run.AwaitSlice?
  {
    var till := c.run.till;
    match r
    case SliceRead(slice) => d == c.(run := InSlice(slice.events, slice, till))
    case Failed => d.run == Idle && d.nextRead == c.nextRead && SameQueue(c, d)
    case StreamNotFound =>
      && d.nextRead == c.nextRead && SameQueue(c, d)
      && if till.Some? && till.value != EventNumber(-1) then d.run == Idle && d.listeners == c.listeners
         else ReadOver(c, d, till)
  }

  /** One event of the slice in hand, or its end. */
  ghost predicate SliceDoes(c: Client, throws: bool, d: Client)
    requires c.run.InSlice?
  {
    var InSlice(rest, slice, till) := c.run;
    if rest == [] then
      && d.nextRead == slice.next && SameQueue(c, d)
      && if ReadEnough(c, slice, till) || c.shouldStop then ReadOver(c, d, till)
         else d == c.(nextRead := slice.next, run := AwaitSlice(till))
    else if !Less(c.lastProcessed, rest[0].key) then d == c.(run := InSlice(rest[1..], slice, till))
    else if throws then
      d.run == Idle && d.calls == c.calls + [Call(rest[0], false)] && d.lastProcessed == c.lastProcessed
      && d.nextRead == c.nextRead
    else
      d == c.(run := AwaitHandler(rest[1..], slice, till), calls := c.calls + [Call(rest[0], true)],
              lastProcessed := rest[0].key)
  }

  /** What the chain does when what it waits for has come. */
  ghost predicate ChainDoes(c: Client, i: Input, d: Client) {
    match i
    case ReadArrived(r) => if c.run.AwaitSlice? then ReadDoes(c, r, d) else d == c
    case SliceContinues(throws) => if c.run.InSlice? then SliceDoes(c, throws, d) else d == c
    case HandlerSettled(fulfilled) =>
      if !c.run.AwaitHandler? then d == c
      else if fulfilled then d == c.(run := InSlice(c.run.rest, c.run.slice, c.run.till))
      else d.run == Idle && d.nextRead == c.nextRead && SameQueue(c, d)
    case SubscribeConfirmed(till) =>
      d == if c.run.Subscribing? then c.(subscribed := true, run := AwaitSlice(Some(till))) else c
    case SubscribeFailed =>
      if c.run.Subscribing? then d.run == Idle && d.nextRead == c.nextRead && SameQueue(c, d) else d == c
    case Reconnected =>
      if c.listeners == 0 then d == c
      else
        && d.run == AwaitSlice(None) && d.nextRead == c.nextRead && d.listeners == c.listeners - 1
        && d.dropData == None && !d.isDropped && d.liveQueue == c.liveQueue && d.live == c.live
        && d.allowProcessing == c.allowProcessing && SameDelivery(c, d)
    case _ => true
  }

  lemma EndDoes(c: Client, till: Option<Key>)
    ensures var d := FinishRead(c, till); ReadOver(c, d, till) && d.nextRead == c.nextRead && SameQueue(c, d)
  {
  }

  lemma FailDoes(c: Client)
    ensures var d := FailRun(c);
            d.run == Idle && d.nextRead == c.nextRead && d.listeners == c.listeners && SameQueue(c, d)
  {
  }

  lemma EnoughIs(c: Client, slice: Slice, till: Option<Key>)
    ensures ReadDone(c.isSubscribedToAll, slice, till) <==> ReadEnough(c, slice, till)
  {
  }

  lemma FinishedDoes(c: Client)
    requires c.run.InSlice? && c.run.rest == []
    ensures SliceDoes(c, false, SliceFinished(c)) && SliceDoes(c, true, SliceFinished(c))
  {
    hide FinishRead, ReadDone, ReadEnough;
    EnoughIs(c, c.run.slice, c.run.till);
    EndDoes(c.(nextRead := c.run.slice.next), c.run.till);
    SameOver(c, c.(nextRead := c.run.slice.next), SliceFinished(c), c.run.till);
  }

  lemma SameOver(c: Client, m: Client, d: Client, till: Option<Key>)
    requires m == c.(nextRead := m.nextRead)
    ensures ReadOver(m, d, till) ==> ReadOver(c, d, till)
  {
  }

  lemma NextDoes(c: Client, throws: bool)
    requires c.run.InSlice? && c.run.rest != []
    ensures SliceDoes(c, throws, ProcessNext(c, throws))
  {
    hide Less, FailRun, Frame;
    FailDoes(TryProcess(c, c.run.rest[0], throws));
  }

  lemma ReadIs(c: Client, r: ReadResult)
    requires c.run.AwaitSlice?
    ensures ReadDoes(c, r, OnReadResult(c, r))
  {
    hide FinishRead, FailRun, ReadOver;
    FailDoes(c);
    EndDoes(c, c.run.till);
  }

  /**
   * Each continuation of the chain, from the first read to live processing, and the reconnection that begins another:
   * where reading stopped, with the old drop forgotten and everything that is queued left there.
   */
  lemma ChainExact(c: Client, i: Input)
    ensures ChainDoes(c, i, React(c, i))
  {
    hide OnReadResult, SliceFinished, ProcessNext, FailRun, ProcessLiveQueue, SliceDoes, ReadDoes;
    FailDoes(c);
    match i
    case ReadArrived(r) => if c.run.AwaitSlice? { ReadIs(c, r); }
    case SliceContinues(throws) =>
      if c.run.InSlice? && c.run.rest == [] {
        FinishedDoes(c);
      } else if c.run.InSlice? {
        NextDoes(c, throws);
      }
    case _ =>
  }

  // ---- The live queue ----

  /** A turn: the queue goes to sleep when it is empty, drops, or tries the first event and waits for its handler. */
  ghost predicate TurnDoes(c: Client, throws: bool, d: Client) {
    if c.liveQueue == [] then d == c.(isProcessing := false, live := Off)
    else
      && d.liveQueue == c.liveQueue[1..] && ReadKept(c, d) && d.listeners == c.listeners
      && match c.liveQueue[0]
         case DropMarker => d.live == Off && !d.isProcessing && SameDelivery(c, d)
         case Pushed(e) =>
           if !Less(c.lastProcessed, e.key) then d == c.(liveQueue := c.liveQueue[1..], live := Awaiting(false))
           else if throws then
             d.live == Off && !d.isProcessing && d.calls == c.calls + [Call(e, false)]
             && d.lastProcessed == c.lastProcessed
           else
             d == c.(liveQueue := c.liveQueue[1..], live := Awaiting(true), calls := c.calls + [Call(e, true)],
                     lastProcessed := e.key)
  }

  lemma MarkerDoes(c: Client)
    ensures var d := ProcessDropMarker(c);
            d.live == Off && !d.isProcessing && SameDelivery(c, d) && d.liveQueue == c.liveQueue && ReadKept(c, d)
            && d.listeners == c.listeners
  {
  }

  lemma PushedDoes(c: Client, e: Event, throws: bool)
    ensures var d := ProcessPushed(c, e, throws);
            && d.liveQueue == c.liveQueue && ReadKept(c, d) && d.listeners == c.listeners
            && if !Less(c.lastProcessed, e.key) then d == c.(live := Awaiting(false))
               else if throws then
                 d.live == Off && !d.isProcessing && d.calls == c.calls + [Call(e, false)]
                 && d.lastProcessed == c.lastProcessed
               else d == c.(live := Awaiting(true), calls := c.calls + [Call(e, true)], lastProcessed := e.key)
  {
    hide Less, Frame, DropSubscription;
    DropKeeps(TryProcess(c, e, throws), EventHandlerException);
  }

  /** What a drop leaves alone. */
  lemma DropKeeps(c: Client, reason: Reason)
    ensures var d := DropSubscription(c, reason);
            SameDelivery(c, d) && QueueKept(c, d) && ReadKept(c, d) && d.listeners == c.listeners
  {
  }

  lemma TurnIs(c: Client, throws: bool)
    ensures TurnDoes(c, throws, ProcessLiveQueue(c, throws))
  {
    hide ProcessDropMarker, ProcessPushed, Less, Frame, QueueKept;
    if c.liveQueue != [] {
      MarkerDoes(Shift(c));
      if c.liveQueue[0].Pushed? {
        PushedDoes(Shift(c), c.liveQueue[0].event, throws);
      }
    }
  }

  /**
   * Each input of the live queue: a turn that is due, or the end of the handler call it waits for, which is followed by
   * the next turn or, after a failure, by a drop with which the queue stops.
   */
  lemma LiveExact(c: Client, i: Input)
    ensures i.LiveContinues? ==>
              if c.live.Scheduled? then TurnDoes(c, i.throws, React(c, i)) else React(c, i) == c
    ensures i.LiveSettled? ==>
              if !c.live.Awaiting? || (!i.settled && !c.live.called) then React(c, i) == c
              else if i.settled then TurnDoes(c, i.throwsNext, React(c, i))
              else
                var d := React(c, i);
                d.live == Off && !d.isProcessing && SameDelivery(c, d) && QueueKept(c, d) && ReadKept(c, d)
  {
    hide ProcessLiveQueue, TurnDoes, DropSubscription, Frame;
    DropKeeps(c, EventHandlerException);
    match i
    case LiveContinues(throws) => TurnIs(c, throws);
    case LiveSettled(settled, throwsNext) => TurnIs(c, throwsNext);
    case _ =>
  }
}
