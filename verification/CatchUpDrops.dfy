/** When a catch-up subscription is dropped, what its owner is told, and what becomes of the server subscription. */
module CatchUpDrops {
  import opened Wrappers
  import opened CatchUp
  import opened CatchUpCoherence
  import opened CatchUpSteps

  // ---- The reason a client has to drop, read off its state and the input ----

  /** A turn of the live queue drops at a marker, with the reason given for it, and at an event whose handler throws. */
  function TurnReason(c: Client, throws: bool): Option<Reason> {
    if c.liveQueue == [] then None
    else
      match c.liveQueue[0]
      case DropMarker => if c.dropData.Some? then c.dropData else Some(Unknown)
      case Pushed(e) => if throws && Less(c.lastProcessed, e.key) then Some(EventHandlerException) else None
  }

  /** A slice drops at an event whose handler throws, and at its end once a stop has been asked for. */
  function SliceReason(c: Client, throws: bool): Option<Reason>
    requires c.run.InSlice?
  {
    if c.run.rest != [] then
      if throws && Less(c.lastProcessed, c.run.rest[0].key) then Some(CatchUpError) else None
    else if c.shouldStop then Some(UserInitiated)
    else None
  }

  /** A failed read drops; a missing stream too, unless nothing was expected, and then still after a stop. */
  function ReadReason(c: Client, r: ReadResult): Option<Reason>
    requires c.run.AwaitSlice?
  {
    match r
    case SliceRead(_) => None
    case Failed => Some(CatchUpError)
    case StreamNotFound =>
      if c.run.till.Some? && c.run.till != Some(EventNumber(-1)) then Some(CatchUpError)
      else if c.shouldStop then Some(UserInitiated)
      else None
  }

  /** Why an input drops the subscription, if it does. */
  function DropReason(c: Client, i: Input): Option<Reason> {
    match i
    case ReadArrived(r) => if c.run.AwaitSlice? then ReadReason(c, r) else None
    case SliceContinues(throws) => if c.run.InSlice? then SliceReason(c, throws) else None
    case HandlerSettled(fulfilled) => if c.run.AwaitHandler? && !fulfilled then Some(CatchUpError) else None
    case SubscribeFailed => if c.run.Subscribing? then Some(CatchUpError) else None
    case LiveContinues(throws) => if c.live.Scheduled? then TurnReason(c, throws) else None
    case LiveSettled(fulfilled, throws) =>
      if !c.live.Awaiting? then None
      else if fulfilled then TurnReason(c, throws)
      else if c.live.called then Some(EventHandlerException)
      else None
    case _ => None
  }

  /** What its owner is told by an input: the reason, unless it has been told one in this run. */
  function Told(c: Client, i: Input): seq<Reason> {
    if !c.isDropped && DropReason(c, i).Some? then [DropReason(c, i).value] else []
  }

  predicate Overflowing(c: Client, i: Input) { i.EventPushed? && |c.liveQueue| >= c.maxPushQueueSize }

  /** From `c` to `d` the owner is told `told` and the server subscription is ended by that and by an overflow. */
  ghost predicate DropsBy(c: Client, d: Client, reason: Option<Reason>, overflow: bool) {
    var told := !c.isDropped && reason.Some?;
    && d.drops == c.drops + (if told then [reason.value] else [])
    && d.isDropped == (c.isDropped || reason.Some?)
    && d.unsubscribes == c.unsubscribes + Flag(overflow) + Flag(told && c.subscribed)
  }

  // ---- Function by function ----

  lemma DropIs(c: Client, reason: Reason)
    ensures DropsBy(c, DropSubscription(c, reason), Some(reason), false)
  {
  }

  lemma NoDrop(c: Client, d: Client)
    requires d.drops == c.drops && d.isDropped == c.isDropped && d.unsubscribes == c.unsubscribes
    ensures DropsBy(c, d, None, false)
  {
    assert c.drops + [] == c.drops;
  }

  /** Where a drop looks at a client. */
  ghost predicate SameDrops(c: Client, d: Client) {
    d.drops == c.drops && d.isDropped == c.isDropped && d.unsubscribes == c.unsubscribes && d.subscribed == c.subscribed
  }

  lemma FailIs(c: Client)
    ensures DropsBy(c, FailRun(c), Some(CatchUpError), false)
  {
    hide DropSubscription;
    DropIs(c, CatchUpError);
  }

  lemma EndIs(c: Client)
    ensures DropsBy(c, EndRun(c), if c.shouldStop then Some(UserInitiated) else None, false)
  {
    hide DropSubscription;
    if c.shouldStop {
      DropIs(c, UserInitiated);
    } else {
      NoDrop(c, EndRun(c));
    }
  }

  lemma FinishIs(c: Client, till: Option<Key>)
    ensures DropsBy(c, FinishRead(c, till), if c.shouldStop then Some(UserInitiated) else None, false)
  {
    hide EndRun, DropsBy;
    EndIs(c);
    if till.None? && !c.shouldStop {
      NoDrop(c, FinishRead(c, till));
    }
  }

  lemma ReadIs(c: Client, r: ReadResult)
    requires c.run.AwaitSlice?
    ensures DropsBy(c, OnReadResult(c, r), ReadReason(c, r), false)
  {
    hide FinishRead, FailRun, DropsBy;
    FailIs(c);
    FinishIs(c, c.run.till);
    if r.SliceRead? {
      NoDrop(c, OnReadResult(c, r));
    }
  }

  lemma TrySame(c: Client, e: Event, throws: bool)
    ensures SameDrops(c, TryProcess(c, e, throws))
  {
    hide Less;
  }

  lemma NextIs(c: Client, throws: bool)
    requires c.run.InSlice? && c.run.rest != []
    ensures DropsBy(c, ProcessNext(c, throws), SliceReason(c, throws), false)
  {
    hide TryProcess, FailRun, Less;
    var t := TryProcess(c, c.run.rest[0], throws);
    TrySame(c, c.run.rest[0], throws);
    FailIs(t);
    if !(throws && Handles(c, c.run.rest[0])) {
      NoDrop(c, ProcessNext(c, throws));
    }
  }

  lemma FinishedIs(c: Client)
    requires c.run.InSlice? && c.run.rest == []
    ensures DropsBy(c, SliceFinished(c), SliceReason(c, false), false)
  {
    hide FinishRead, ReadDone;
    var m := c.(nextRead := c.run.slice.next);
    FinishIs(m, c.run.till);
    if !(ReadDone(c.isSubscribedToAll, c.run.slice, c.run.till) || c.shouldStop) {
      NoDrop(c, SliceFinished(c));
    }
  }

  lemma SliceIs(c: Client, throws: bool)
    requires c.run.InSlice?
    ensures DropsBy(c, ProcessEvents(c, throws), SliceReason(c, throws), false)
  {
    hide SliceFinished, ProcessNext, DropsBy;
    if c.run.rest == [] {
      FinishedIs(c);
    } else {
      NextIs(c, throws);
    }
  }

  lemma MarkerIs(c: Client)
    ensures DropsBy(c, ProcessDropMarker(c), if c.dropData.Some? then c.dropData else Some(Unknown), false)
  {
    hide DropSubscription;
    var reason := if c.dropData.Some? then c.dropData.value else Unknown;
    DropIs(c.(dropData := Some(reason)), reason);
  }

  lemma PushedIs(c: Client, e: Event, throws: bool)
    ensures DropsBy(c, ProcessPushed(c, e, throws),
                    if throws && Less(c.lastProcessed, e.key) then Some(EventHandlerException) else None, false)
  {
    hide TryProcess, DropSubscription, Less;
    TrySame(c, e, throws);
    DropIs(TryProcess(c, e, throws), EventHandlerException);
    if !(throws && Handles(c, e)) {
      NoDrop(c, ProcessPushed(c, e, throws));
    }
  }

  lemma ShiftedDrops(c: Client, d: Client, reason: Option<Reason>)
    requires c.liveQueue != [] && DropsBy(Shift(c), d, reason, false)
    ensures DropsBy(c, d, reason, false)
  {
  }

  lemma MarkerTurn(c: Client, throws: bool)
    requires c.liveQueue != [] && c.liveQueue[0].DropMarker?
    ensures DropsBy(c, ProcessLiveQueue(c, throws), TurnReason(c, throws), false)
  {
    hide ProcessDropMarker, ProcessPushed, Less, Frame, QueueKept, SameDelivery, DropsBy;
    MarkerIs(Shift(c));
    ShiftedDrops(c, ProcessDropMarker(Shift(c)), TurnReason(c, throws));
  }

  lemma PushedTurn(c: Client, throws: bool)
    requires c.liveQueue != [] && c.liveQueue[0].Pushed?
    ensures DropsBy(c, ProcessLiveQueue(c, throws), TurnReason(c, throws), false)
  {
    hide ProcessDropMarker, ProcessPushed, Less, Frame, QueueKept, SameDelivery, DropsBy, TryProcess;
    var e := c.liveQueue[0].event;
    PushedIs(Shift(c), e, throws);
    ShiftedDrops(c, ProcessPushed(Shift(c), e, throws), TurnReason(c, throws));
  }

  lemma TurnIs(c: Client, throws: bool)
    ensures DropsBy(c, ProcessLiveQueue(c, throws), TurnReason(c, throws), false)
  {
    hide ProcessDropMarker, ProcessPushed, Less, Frame, QueueKept, SameDelivery, DropsBy;
    if c.liveQueue == [] {
      NoDrop(c, ProcessLiveQueue(c, throws));
    } else if c.liveQueue[0].DropMarker? {
      MarkerTurn(c, throws);
    } else {
      PushedTurn(c, throws);
    }
  }

  lemma SettledIs(c: Client, fulfilled: bool, throws: bool)
    ensures DropsBy(c, OnLiveSettled(c, fulfilled, throws),
                    if fulfilled then TurnReason(c, throws) else Some(EventHandlerException), false)
  {
    hide ProcessLiveQueue, DropSubscription, TurnReason;
    TurnIs(c, throws);
    DropIs(c, EventHandlerException);
  }

  lemma RequestIs(c: Client, reason: Reason)
    ensures DropsBy(c, EnqueueSubscriptionDropNotification(c, reason), None, false)
  {
    NoDrop(c, EnqueueSubscriptionDropNotification(c, reason));
  }

  lemma PushIs(c: Client, e: Event)
    ensures DropsBy(c, EnqueuePushedEvent(c, e), None, |c.liveQueue| >= c.maxPushQueueSize)
  {
    hide EnqueueSubscriptionDropNotification;
    RequestIs(c, ProcessingQueueOverflow);
  }

  lemma StopIs(c: Client)
    ensures DropsBy(c, StopRequested(c), None, false)
  {
    hide EnqueueSubscriptionDropNotification;
    RequestIs(c.(listeners := if c.listeners > 0 then c.listeners - 1 else 0, shouldStop := true), UserInitiated);
  }

  lemma ChainIs(c: Client, i: Input)
    requires i.HandlerSettled? || i.SubscribeConfirmed? || i.SubscribeFailed?
    ensures DropsBy(c, React(c, i), DropReason(c, i), false)
  {
    hide FailRun;
    FailIs(c);
    if DropReason(c, i).None? {
      NoDrop(c, React(c, i));
    }
  }

  lemma ReactIs(c: Client, i: Input)
    requires !i.Reconnected?
    ensures DropsBy(c, React(c, i), DropReason(c, i), Overflowing(c, i))
  {
    hide OnReadResult, ProcessEvents, OnHandlerSettled, OnSubscribed, FailRun, EnqueuePushedEvent,
      EnqueueSubscriptionDropNotification, StopRequested, ProcessLiveQueue, OnLiveSettled, DropsBy, TurnReason,
      SliceReason, ReadReason;
    NoDrop(c, c);
    match i
    case ReadArrived(r) => if c.run.AwaitSlice? { ReadIs(c, r); }
    case SliceContinues(throws) => if c.run.InSlice? { SliceIs(c, throws); }
    case EventPushed(e) => PushIs(c, e);
    case ServerDropped(reason) => RequestIs(c, reason);
    case StopCalled => StopIs(c);
    case LiveContinues(throws) => TurnIs(c, throws);
    case LiveSettled(fulfilled, throws) => SettledIs(c, fulfilled, throws);
    case _ => ChainIs(c, i);
  }

  lemma ReconnectedDrops(c: Client)
    ensures var d := React(c, Reconnected);
            && d.drops == c.drops && d.unsubscribes == c.unsubscribes
            && d.isDropped == (c.isDropped && c.listeners == 0)
            && c.drops + Told(c, Reconnected) == c.drops
  {
  }

  /**
   * What every input makes of a client's drops. Its owner is told, once in a run and with the reason, exactly at a
   * marker of the live queue, at a live handler that throws or rejects, at a read, a subscribe request or a handler
   * that fails while catching up, and at the end of the chain after a stop. The server subscription is told to end
   * with it, and by every push that meets a full queue. A run that begins may be dropped anew.
   */
  lemma DropsExact(c: Client, i: Input)
    ensures var d := React(c, i);
            && d.drops == c.drops + Told(c, i)
            && d.isDropped == (if i.Reconnected? then c.isDropped && c.listeners == 0
                               else c.isDropped || DropReason(c, i).Some?)
            && d.unsubscribes == c.unsubscribes + Flag(Overflowing(c, i)) + Flag(c.subscribed && d.drops != c.drops)
  {
    hide OnReadResult, ProcessEvents, OnHandlerSettled, OnSubscribed, FailRun, EnqueuePushedEvent,
      EnqueueSubscriptionDropNotification, StopRequested, ProcessLiveQueue, OnLiveSettled, TurnReason, SliceReason,
      ReadReason, React;
    if i.Reconnected? {
      ReconnectedDrops(c);
    } else {
      assert DropsBy(c, React(c, i), DropReason(c, i), Overflowing(c, i)) by { ReactIs(c, i); }
    }
  }

  // ---- A stop of a live client ----

  /** A turn of the live queue that is due. */
  predicate Turns(c: Client, i: Input) {
    match i
    case LiveContinues(_) => c.live.Scheduled?
    case LiveSettled(fulfilled, _) => c.live.Awaiting? && (fulfilled || c.live.called)
    case _ => false
  }

  /** Pushes, requests for a drop and turns, in which no handler fails. */
  ghost predicate Healthy(inputs: seq<Input>) {
    forall i :: 0 <= i < |inputs| ==>
      match inputs[i]
      case LiveContinues(throws) => !throws
      case LiveSettled(fulfilled, throwsNext) => fulfilled && !throwsNext
      case EventPushed(_) => true
      case ServerDropped(_) => true
      case StopCalled => true
      case _ => false
  }

  function TurnsTaken(c: Client, inputs: seq<Input>): nat
    decreases |inputs|
  {
    if inputs == [] then 0 else (if Turns(c, inputs[0]) then 1 else 0) + TurnsTaken(React(c, inputs[0]), inputs[1..])
  }

  /** The marker of the stop is still ahead, `n` turns at most from here. */
  ghost predicate Stopping(c: Client, n: nat) {
    && FlagsOk(c) && c.allowProcessing && !c.isDropped && c.dropData == Some(UserInitiated) && !c.live.Off?
    && exists k :: 0 <= k < n && k < |c.liveQueue| && c.liveQueue[k].DropMarker?
  }

  lemma StoppingTurn(c: Client, n: nat)
    requires Stopping(c, n)
    ensures var d := ProcessLiveQueue(c, false);
            if c.liveQueue[0].DropMarker? then true
            else n > 1 && d.liveQueue == c.liveQueue[1..] && !d.live.Off? && d.dropData == c.dropData
                 && d.allowProcessing && d.isDropped == c.isDropped
  {
    hide Less, DropSubscription, FlagsOk;
  }

  lemma StoppingInput(c: Client, i: Input, n: nat)
    requires Stopping(c, n) && Healthy([i])
    ensures var d := React(c, i);
            if Turns(c, i) then n > 0 && ((n > 1 && Stopping(d, n - 1) && d.drops == c.drops)
                                          || (d.isDropped && d.drops == c.drops + [UserInitiated]))
            else Stopping(d, n) && d.drops == c.drops
  {
    hide FlagsOk, ProcessLiveQueue, EnqueuePushedEvent, EnqueueSubscriptionDropNotification, StopRequested, Less, Frame;
    assert [i][0] == i;
    ReactFlags(c, i);
    DropsExact(c, i);
    var k :| 0 <= k < n && k < |c.liveQueue| && c.liveQueue[k].DropMarker?;
    var d := React(c, i);
    if Turns(c, i) {
      StoppingTurn(c, n);
      if !c.liveQueue[0].DropMarker? {
        assert d.liveQueue[k - 1] == c.liveQueue[k];
      }
    } else {
      QueueExact(c, i);
      StaysAwake(c, i);
      assert d.liveQueue[k] == c.liveQueue[k];
    }
  }

  lemma StaysAwake(c: Client, i: Input)
    requires FlagsOk(c) && c.allowProcessing && !c.live.Off? && Healthy([i]) && !Turns(c, i)
    ensures React(c, i).allowProcessing && !React(c, i).live.Off? && React(c, i).isDropped == c.isDropped
    ensures c.dropData.Some? ==> React(c, i).dropData == c.dropData && c.liveQueue <= React(c, i).liveQueue
  {
    hide Less, ProcessLiveQueue;
    assert [i][0] == i;
  }

  lemma {:induction false} DroppedStays(c: Client, inputs: seq<Input>)
    requires c.isDropped && Healthy(inputs)
    ensures ReactAll(c, inputs).drops == c.drops
    decreases |inputs|
  {
    hide React, Told, DropReason;
    if inputs != [] {
      DropsExact(c, inputs[0]);
      ToldOnce(c, inputs[0]);
      assert Healthy(inputs[1..]) by { assert forall k :: 0 <= k < |inputs[1..]| ==> inputs[1..][k] == inputs[k + 1]; }
      DroppedStays(React(c, inputs[0]), inputs[1..]);
    }
  }

  lemma ToldOnce(c: Client, i: Input)
    requires c.isDropped
    ensures c.drops + Told(c, i) == c.drops
  {
  }

  lemma {:induction false} StoppingEnds(c: Client, inputs: seq<Input>, n: nat)
    requires Stopping(c, n) && Healthy(inputs)
    ensures var d := ReactAll(c, inputs);
            (TurnsTaken(c, inputs) >= n ==> d.drops == c.drops + [UserInitiated])
            && (d.drops == c.drops || d.drops == c.drops + [UserInitiated])
    decreases |inputs|
  {
    hide React, Turns, FlagsOk;
    if inputs == [] {
      assert n > 0;
    } else {
      var i, rest := inputs[0], inputs[1..];
      assert Healthy([i]) by { assert [i][0] == inputs[0]; }
      assert Healthy(rest) by { assert forall k :: 0 <= k < |rest| ==> rest[k] == inputs[k + 1]; }
      StoppingInput(c, i, n);
      var d := React(c, i);
      if !Turns(c, i) {
        StoppingEnds(d, rest, n);
      } else if d.isDropped && d.drops == c.drops + [UserInitiated] {
        DroppedStays(d, rest);
      } else {
        StoppingEnds(d, rest, n - 1);
      }
    }
  }

  /**
   * A stop of a live client: its owner is told so exactly once, after no more turns than there were events queued, and
   * one, whatever is pushed meanwhile, if the handlers do not fail.
   */
  lemma StopIsTold(c: Client, inputs: seq<Input>)
    requires FlagsOk(c) && c.allowProcessing && !c.isDropped && c.dropData.None? && Healthy(inputs)
    ensures var s := React(c, StopCalled); var d := ReactAll(s, inputs);
            && (d.drops == c.drops || d.drops == c.drops + [UserInitiated])
            && (TurnsTaken(s, inputs) > |c.liveQueue| ==> d.drops == c.drops + [UserInitiated])
  {
    hide React, FlagsOk, ReactAll, TurnsTaken, Healthy;
    ReactFlags(c, StopCalled);
    QueueExact(c, StopCalled);
    DropsExact(c, StopCalled);
    var s := React(c, StopCalled);
    StopAllowed(c);
    assert s.liveQueue[|c.liveQueue|].DropMarker?;
    assert c.drops + [] == c.drops;
    StoppingEnds(s, inputs, |c.liveQueue| + 1);
  }

  lemma StopAllowed(c: Client)
    ensures React(c, StopCalled).allowProcessing == c.allowProcessing && Told(c, StopCalled) == []
    ensures DropReason(c, StopCalled).None?
  {
  }
}
