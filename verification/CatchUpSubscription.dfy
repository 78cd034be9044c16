/** The subscription object: its fields, updated in place, and the methods that run as callbacks and continuations. */
module CatchUpSubscriptions {
  import opened Wrappers
  import opened Positions
  import opened CatchUp
  import opened CatchUpCoherence
  import CatchUpDrops
  import CatchUpResults
  import CatchUpRuns

  /** What every input keeps: the order of delivery, and the limits of queue and callbacks for the runs begun so far. */
  ghost predicate Sound(c: Client, runs: nat) {
    Increasing(c.calls, c.lastProcessed) && CatchUpResults.Limited(c, runs)
  }

  /** A reconnection the client listens for begins a run. */
  function Begins(c: Client, i: Input): nat { if i.Reconnected? && c.listeners > 0 then 1 else 0 }

  /** A step that keeps deliveries and queue, and calls back only for a drop. */
  lemma KeptSound(c: Client, d: Client, runs: nat)
    requires Sound(c, runs) && SameDelivery(c, d) && QueueKept(c, d) && Frame(c, d)
    ensures Sound(d, runs)
  {
    hide Increasing, CatchUpResults.Markers, CatchUpRuns.EventsIn;
  }

  lemma TriedSound(c: Client, e: Event, throws: bool, d: Client, runs: nat)
    requires Sound(c, runs) && SameDelivery(CatchUp.TryProcess(c, e, throws), d) && QueueKept(c, d) && Frame(c, d)
    ensures Sound(d, runs) && c.calls <= d.calls
  {
    hide Increasing, CatchUpResults.Markers, CatchUpRuns.EventsIn, CatchUp.TryProcess;
    TryProcessIncreasing(c, e, throws);
  }

  lemma RequestSound(c: Client, reason: Reason, runs: nat)
    requires Sound(c, runs)
    ensures Sound(CatchUp.EnqueueSubscriptionDropNotification(c, reason), runs)
  {
    hide Increasing, CatchUpResults.Markers, CatchUpRuns.EventsIn;
    CatchUpResults.LimitedDropRequest(c, reason, runs);
  }

  lemma PushSound(c: Client, e: Event, runs: nat)
    requires Sound(c, runs)
    ensures Sound(CatchUp.EnqueuePushedEvent(c, e), runs)
  {
    hide Increasing, CatchUpResults.Markers, CatchUpRuns.EventsIn, CatchUp.EnqueuePushedEvent;
    CatchUpResults.LimitedPush(c, e, runs);
  }

  lemma LiveSound(c: Client, throws: bool, runs: nat)
    requires Sound(c, runs)
    ensures var d := CatchUp.ProcessLiveQueue(c, throws); Sound(d, runs) && c.calls <= d.calls
  {
    hide Increasing, CatchUpResults.Markers, CatchUpRuns.EventsIn, CatchUp.ProcessLiveQueue, CatchUp.TryProcess;
    CatchUpResults.LimitedLive(c, throws, runs);
    ProcessLiveQueueDelivery(c, throws);
    if FrontEvent(c.liveQueue).Some? {
      TryProcessIncreasing(c, FrontEvent(c.liveQueue).value, throws);
    }
  }

  lemma AgainSound(c: Client, runs: nat)
    requires Sound(c, runs) && c.listeners > 0
    ensures Sound(CatchUp.React(c, Reconnected), runs + 1)
  {
    hide Increasing, CatchUpResults.Markers, CatchUpRuns.EventsIn;
  }

  lemma FailSound(c: Client, runs: nat)
    requires Sound(c, runs)
    ensures Sound(CatchUp.FailRun(c), runs)
  {
    hide Sound, CatchUp.FailRun;
    KeptSound(c, CatchUp.FailRun(c), runs);
  }

  lemma ReadSound(c: Client, r: ReadResult, runs: nat)
    requires Sound(c, runs) && c.run.AwaitSlice?
    ensures Sound(CatchUp.OnReadResult(c, r), runs)
  {
    hide Sound, CatchUp.OnReadResult;
    KeptSound(c, CatchUp.OnReadResult(c, r), runs);
  }

  lemma SliceSound(c: Client, throws: bool, runs: nat)
    requires Sound(c, runs) && c.run.InSlice?
    ensures var d := CatchUp.ProcessEvents(c, throws); Sound(d, runs) && c.calls <= d.calls
  {
    hide Sound, CatchUp.ProcessEvents, CatchUp.TryProcess;
    if c.run.rest == [] {
      KeptSound(c, CatchUp.ProcessEvents(c, throws), runs);
    } else {
      TriedSound(c, c.run.rest[0], throws, CatchUp.ProcessEvents(c, throws), runs);
    }
  }

  lemma SettledSound(c: Client, fulfilled: bool, runs: nat)
    requires Sound(c, runs) && c.run.AwaitHandler?
    ensures Sound(CatchUp.OnHandlerSettled(c, fulfilled), runs)
  {
    hide Sound, CatchUp.OnHandlerSettled;
    KeptSound(c, CatchUp.OnHandlerSettled(c, fulfilled), runs);
  }

  lemma SubscribedSound(c: Client, till: Key, runs: nat)
    requires Sound(c, runs) && c.run.Subscribing?
    ensures Sound(CatchUp.OnSubscribed(c, till), runs)
  {
    hide Sound, CatchUp.OnSubscribed;
    KeptSound(c, CatchUp.OnSubscribed(c, till), runs);
  }

  lemma StopSound(c: Client, runs: nat)
    requires Sound(c, runs)
    ensures Sound(StopRequested(c), runs)
    ensures Sound(c.(listeners := if c.listeners > 0 then c.listeners - 1 else 0, shouldStop := true), runs)
  {
    hide Sound, CatchUp.EnqueueSubscriptionDropNotification;
    var d := c.(listeners := if c.listeners > 0 then c.listeners - 1 else 0, shouldStop := true);
    KeptSound(c, d, runs);
    RequestSound(d, UserInitiated, runs);
  }

  lemma LiveSettledSound(c: Client, fulfilled: bool, throws: bool, runs: nat)
    requires Sound(c, runs)
    ensures var d := CatchUp.OnLiveSettled(c, fulfilled, throws); Sound(d, runs) && c.calls <= d.calls
  {
    hide Sound, CatchUp.ProcessLiveQueue, CatchUp.DropSubscription;
    LiveSound(c, throws, runs);
    if !fulfilled {
      KeptSound(c, CatchUp.OnLiveSettled(c, false, throws), runs);
    }
  }

  lemma CallsGrow(c: Client, i: Input, runs: nat)
    requires Sound(c, runs)
    ensures c.calls <= CatchUp.React(c, i).calls
  {
    hide CatchUp.React, CatchUp.TryProcess, Increasing, CatchUpResults.Limited;
    ReactCalls(c, i);
    if Attempt(c, i).Some? {
      TryProcessIncreasing(c, Attempt(c, i).value, Throws(i));
    }
  }

  lemma SoundBounds(c: Client, runs: nat)
    requires Sound(c, runs)
    ensures |c.liveQueue| <= c.maxPushQueueSize + runs && |c.drops| <= runs
  {
    CatchUpResults.MarkersSnoc(c.liveQueue, DropMarker);
  }

  class EventStoreCatchUpSubscription {
    const isSubscribedToAll: bool
    const readBatchSize: nat
    const maxPushQueueSize: nat
    var nextRead: Key
    var lastProcessed: Key
    var liveQueue: seq<Item>
    var dropData: Option<Reason>
    var isProcessing: bool
    var isDropped: bool
    var shouldStop: bool
    var allowProcessing: bool
    var subscribed: bool
    /** How often the server subscription has been told to end. */
    var unsubscribes: nat
    /** How often `_onReconnect` is registered with the connection. */
    var listeners: nat
    var run: Run
    var live: Live
    /** The calls of `eventAppeared` and of `subscriptionDropped`. */
    var calls: seq<Call>
    var drops: seq<Reason>
    /** The first run, and those that a reconnection has begun. */
    ghost var runs: nat

    ghost predicate Valid()
      reads this
    {
      Sound(State(), runs)
    }

    ghost function State(): Client
      reads this
    {
      Client(isSubscribedToAll, readBatchSize, maxPushQueueSize, nextRead, lastProcessed, liveQueue, dropData,
             isProcessing, isDropped, shouldStop, allowProcessing, subscribed, unsubscribes, listeners, run, live,
                 calls, drops)
    }

    /** `$all` starts reading at the checkpoint itself, a stream behind it. */
    constructor (isSubscribedToAll: bool, checkpoint: Option<Key>)
      ensures Valid() && State() == NewClient(isSubscribedToAll, checkpoint) && runs == 1
    {
      this.isSubscribedToAll := isSubscribedToAll;
      readBatchSize, maxPushQueueSize := DEFAULT_READ_BATCH_SIZE, DEFAULT_MAX_PUSH_QUEUE_SIZE;
      if isSubscribedToAll {
        lastProcessed := if checkpoint.Some? then checkpoint.value else AtPosition(Position(-1, -1));
        nextRead := if checkpoint.Some? then checkpoint.value else AtPosition(Position(0, 0));
      } else if checkpoint.Some? && checkpoint.value.EventNumber? {
        lastProcessed, nextRead := checkpoint.value, EventNumber(checkpoint.value.n + 1);
      } else {
        lastProcessed, nextRead := EventNumber(-1), EventNumber(0);
      }
      liveQueue, dropData, calls, drops := [], None, [], [];
      isProcessing, isDropped, shouldStop, allowProcessing, subscribed := false, false, false, false, false;
      listeners, unsubscribes, run, live := 0, 0, Idle, Off;
      runs := 1;
      new;
      CatchUpResults.NewIsLimited(isSubscribedToAll, checkpoint);
    }

    /** Called once, on a new subscription. */
    method Start()
      requires Valid() && !isDropped && dropData.None?
      modifies this
      ensures Valid() && State() == CatchUp.RunSubscription(old(State())) && runs == old(runs)
    {
      hide Increasing;
      RunSubscription();
    }

    /**
     * Whatever happens to the subscription: what was called stays called, in order, no event twice, and there is no
     * more in the queue and no more drop callbacks than the runs begun so far allow. Its owner is told of a drop, with
     * the reason, exactly when there is one and it has not been told yet, and the server subscription ends with it.
     */
    method React(input: Input)
      requires Valid()
      modifies this
      ensures Valid() && State() == CatchUp.React(old(State()), input)
              && runs == old(runs) + Begins(old(State()), input)
      ensures old(calls) <= calls
      ensures |liveQueue| <= maxPushQueueSize + runs && |drops| <= runs
      ensures drops == old(drops) + CatchUpDrops.Told(old(State()), input)
      ensures unsubscribes == old(unsubscribes) + Flag(CatchUpDrops.Overflowing(old(State()), input))
                              + Flag(old(subscribed) && drops != old(drops))
    {
      hide Sound, CatchUp.RunSubscription, Frame, QueueKept, SameDelivery, CatchUpDrops.DropReason;
      CallsGrow(State(), input, runs);
      CatchUpDrops.DropsExact(State(), input);
      if Sideways(input) {
        OnSideways(input);
      } else if !input.Reconnected? {
        Continue(input);
      } else if listeners > 0 {
        OnReconnect();
      }
      SoundBounds(State(), runs);
    }

    /** What the promise chain may be waiting for. */
    method Continue(input: Input)
      requires Valid() && !Sideways(input) && !input.Reconnected?
      modifies this
      ensures Valid() && State() == CatchUp.React(old(State()), input) && runs == old(runs)
    {
      hide Sound, CatchUp.OnReadResult, CatchUp.ProcessEvents, CatchUp.OnHandlerSettled, CatchUp.OnSubscribed,
        CatchUp.FailRun;
      match input
      case ReadArrived(r) => if run.AwaitSlice? { OnReadResult(r); }
      case SliceContinues(throws) => if run.InSlice? { ProcessEvents(throws); }
      case HandlerSettled(fulfilled) => if run.AwaitHandler? { OnHandlerSettled(fulfilled); }
      case SubscribeConfirmed(till) => if run.Subscribing? { OnSubscribed(till); }
      case SubscribeFailed => if run.Subscribing? { OnSubscribeFailed(); }
    }

    /** What comes at any time: pushes, requests for a drop, and turns of the live queue. */
    method OnSideways(input: Input)
      requires Valid() && Sideways(input)
      modifies this
      ensures Valid() && State() == CatchUp.React(old(State()), input) && runs == old(runs)
    {
      hide Sound, CatchUp.EnqueuePushedEvent, CatchUp.EnqueueSubscriptionDropNotification, CatchUp.ProcessLiveQueue,
        CatchUp.OnLiveSettled, StopRequested;
      match input
      case EventPushed(e) => EnqueuePushedEvent(e);
      case ServerDropped(reason) => EnqueueSubscriptionDropNotification(reason);
      case StopCalled => Stop();
      case LiveContinues(throws) => if live.Scheduled? { ProcessLiveQueue(throws); }
      case LiveSettled(fulfilled, throws) =>
        if live.Awaiting? && (fulfilled || live.called) { OnLiveSettled(fulfilled, throws); }
    }

    method RunSubscription()
      modifies this
      ensures State() == CatchUp.RunSubscription(old(State()))
      ensures runs == old(runs)
    {
      isDropped := false;
      dropData := None;
      run := AwaitSlice(None);
    }

    /** The connection reports `connected`. */
    method OnReconnect()
      requires Valid() && listeners > 0
      modifies this
      ensures Valid() && State() == CatchUp.React(old(State()), Reconnected) && runs == old(runs) + 1
    {
      hide Sound;
      AgainSound(State(), runs);
      listeners := listeners - 1;
      RunSubscription();
      runs := runs + 1;
    }

    method Stop()
      requires Valid()
      modifies this
      ensures Valid() && State() == StopRequested(old(State()))
      ensures runs == old(runs)
    {
      hide Sound, CatchUp.EnqueueSubscriptionDropNotification;
      StopSound(State(), runs);
      if listeners > 0 {
        listeners := listeners - 1;
      }
      shouldStop := true;
      EnqueueSubscriptionDropNotification(UserInitiated);
    }

    method EnqueueSubscriptionDropNotification(reason: Reason)
      requires Valid()
      modifies this
      ensures Valid() && State() == CatchUp.EnqueueSubscriptionDropNotification(old(State()), reason)
      ensures runs == old(runs)
    {
      hide Sound;
      RequestSound(State(), reason, runs);
      if dropData.Some? {
        return;
      }
      dropData := Some(reason);
      liveQueue := liveQueue + [DropMarker];
      if allowProcessing {
        EnsureProcessingPushQueue();
      }
    }

    method EnqueuePushedEvent(e: Event)
      requires Valid()
      modifies this
      ensures Valid() && State() == CatchUp.EnqueuePushedEvent(old(State()), e)
      ensures runs == old(runs)
    {
      hide Sound, CatchUp.EnqueueSubscriptionDropNotification;
      PushSound(State(), e, runs);
      if |liveQueue| >= maxPushQueueSize {
        EnqueueSubscriptionDropNotification(ProcessingQueueOverflow);
        unsubscribes := unsubscribes + 1;
        return;
      }
      liveQueue := liveQueue + [Pushed(e)];
      if allowProcessing {
        EnsureProcessingPushQueue();
      }
    }

    method EnsureProcessingPushQueue()
      modifies this
      ensures State() == CatchUp.EnsureProcessingPushQueue(old(State()))
      ensures runs == old(runs)
    {
      if isProcessing {
        return;
      }
      isProcessing := true;
      live := Scheduled;
    }

    method DropSubscription(reason: Reason)
      modifies this
      ensures State() == CatchUp.DropSubscription(old(State()), reason)
      ensures runs == old(runs)
    {
      if isDropped {
        return;
      }
      isDropped := true;
      if subscribed {
        unsubscribes := unsubscribes + 1;
      }
      drops := drops + [reason];
    }

    /** Calls the handler for an event beyond the cursor; `ok` is false when the call throws. */
    method TryProcess(e: Event, throws: bool) returns (called: bool, ok: bool)
      modifies this
      ensures State() == CatchUp.TryProcess(old(State()), e, throws)
      ensures runs == old(runs)
      ensures called <==> Handles(old(State()), e)
      ensures ok <==> !(called && throws)
    {
      called, ok := false, true;
      if Compare(e.key, lastProcessed) > 0 {
        CompareFlips(e.key, lastProcessed);
        called := true;
        if throws {
          calls := calls + [Call(e, false)];
          ok := false;
          return;
        }
        calls := calls + [Call(e, true)];
        lastProcessed := e.key;
      } else {
        CompareFlips(e.key, lastProcessed);
      }
    }

    method OnReadResult(r: ReadResult)
      requires Valid() && run.AwaitSlice?
      modifies this
      ensures Valid() && State() == CatchUp.OnReadResult(old(State()), r)
      ensures runs == old(runs)
    {
      hide Sound, CatchUp.FailRun, CatchUp.FinishRead, Frame, QueueKept;
      ReadSound(State(), r, runs);
      match r
      case SliceRead(slice) =>
        run := InSlice(slice.events, slice, run.till);
      case Failed =>
        FailRun();
      case StreamNotFound =>
        if run.till.Some? && run.till.value != EventNumber(-1) {
          FailRun();
        } else {
          FinishRead(run.till);
        }
    }

    method FailRun()
      modifies this
      ensures State() == CatchUp.FailRun(old(State()))
      ensures runs == old(runs)
    {
      DropSubscription(CatchUpError);
      run := Idle;
    }

    method OnSubscribeFailed()
      requires Valid() && run.Subscribing?
      modifies this
      ensures Valid() && State() == CatchUp.FailRun(old(State()))
      ensures runs == old(runs)
    {
      hide Sound, CatchUp.FailRun, Frame, QueueKept;
      FailSound(State(), runs);
      FailRun();
    }

    method FinishRead(till: Option<Key>)
      modifies this
      ensures State() == CatchUp.FinishRead(old(State()), till)
      ensures runs == old(runs)
    {
      if till.None? && !shouldStop {
        run := Subscribing;
        return;
      }
      if shouldStop {
        DropSubscription(UserInitiated);
        run := Idle;
        return;
      }
      run := Idle;
      listeners := listeners + 1;
      allowProcessing := true;
      EnsureProcessingPushQueue();
    }

    /** One turn of the loop over a slice. */
    method ProcessEvents(throws: bool)
      requires Valid() && run.InSlice?
      modifies this
      ensures Valid() && State() == CatchUp.ProcessEvents(old(State()), throws)
      ensures runs == old(runs)
    {
      hide Sound, Frame, QueueKept, SameDelivery, SliceFinished, CatchUp.ProcessNext;
      SliceSound(State(), throws, runs);
      if |run.rest| == 0 {
        FinishSlice();
      } else {
        ProcessNext(throws);
      }
    }

    method FinishSlice()
      requires run.InSlice?
      modifies this
      ensures State() == SliceFinished(old(State())) && runs == old(runs)
    {
      hide Compare, ReadDone, CatchUp.FinishRead, Frame, QueueKept, SameDelivery;
      var InSlice(_, slice, till) := run;
      nextRead := slice.next;
      if ReadDone(isSubscribedToAll, slice, till) || shouldStop {
        FinishRead(till);
      } else {
        run := AwaitSlice(till);
      }
    }

    method ProcessNext(throws: bool)
      requires run.InSlice? && run.rest != []
      modifies this
      ensures State() == CatchUp.ProcessNext(old(State()), throws) && runs == old(runs)
    {
      hide CatchUp.TryProcess, Handles, CatchUp.FailRun, Frame, QueueKept, SameDelivery, ReadKept;
      var InSlice(rest, slice, till) := run;
      var called, ok := TryProcess(rest[0], throws);
      if !ok {
        FailRun();
      } else if called {
        run := AwaitHandler(rest[1..], slice, till);
      } else {
        run := InSlice(rest[1..], slice, till);
      }
    }

    method OnHandlerSettled(fulfilled: bool)
      requires Valid() && run.AwaitHandler?
      modifies this
      ensures Valid() && State() == CatchUp.OnHandlerSettled(old(State()), fulfilled)
      ensures runs == old(runs)
    {
      hide Sound, CatchUp.FailRun, Frame, QueueKept;
      SettledSound(State(), fulfilled, runs);
      if fulfilled {
        run := InSlice(run.rest, run.slice, run.till);
      } else {
        FailRun();
      }
    }

    method OnSubscribed(till: Key)
      requires Valid() && run.Subscribing?
      modifies this
      ensures Valid() && State() == CatchUp.OnSubscribed(old(State()), till)
      ensures runs == old(runs)
    {
      hide Sound, Frame, QueueKept;
      SubscribedSound(State(), till, runs);
      subscribed := true;
      run := AwaitSlice(Some(till));
    }

    method ProcessDropMarker()
      modifies this
      ensures State() == CatchUp.ProcessDropMarker(old(State()))
      ensures runs == old(runs)
    {
      hide CatchUp.DropSubscription, Frame, QueueKept, ReadKept, SameDelivery;
      dropData := Some(if dropData.Some? then dropData.value else Unknown);
      DropSubscription(dropData.value);
      isProcessing, live := false, Off;
    }

    method ProcessPushed(e: Event, throws: bool)
      modifies this
      ensures State() == CatchUp.ProcessPushed(old(State()), e, throws)
      ensures runs == old(runs)
    {
      hide CatchUp.TryProcess, CatchUp.DropSubscription, Compare, Frame, QueueKept, ReadKept, SameDelivery;
      var called, ok := TryProcess(e, throws);
      if !ok {
        DropSubscription(EventHandlerException);
        isProcessing, live := false, Off;
      } else {
        live := Awaiting(called);
      }
    }

    method ProcessLiveQueue(throws: bool)
      requires Valid()
      modifies this
      ensures Valid() && State() == CatchUp.ProcessLiveQueue(old(State()), throws)
      ensures runs == old(runs)
    {
      hide Sound, CatchUp.ProcessPushed, CatchUp.ProcessDropMarker, Frame, QueueKept, ReadKept, SameDelivery;
      LiveSound(State(), throws, runs);
      if |liveQueue| == 0 {
        isProcessing, live := false, Off;
        return;
      }
      var ev := Shift();
      match ev
      case DropMarker => ProcessDropMarker();
      case Pushed(e) => ProcessPushed(e, throws);
    }

    method Shift() returns (ev: Item)
      requires liveQueue != []
      modifies this
      ensures ev == old(liveQueue)[0] && State() == CatchUp.Shift(old(State())) && runs == old(runs)
    {
      ev := liveQueue[0];
      liveQueue := liveQueue[1..];
    }

    method OnLiveSettled(fulfilled: bool, throws: bool)
      requires Valid()
      modifies this
      ensures Valid() && State() == CatchUp.OnLiveSettled(old(State()), fulfilled, throws)
      ensures runs == old(runs)
    {
      hide Sound, CatchUp.ProcessLiveQueue;
      LiveSettledSound(State(), fulfilled, throws, runs);
      if fulfilled {
        ProcessLiveQueue(throws);
      } else {
        DropSubscription(EventHandlerException);
        isProcessing, live := false, Off;
      }
    }
  }

  lemma CompareFlips(a: Key, b: Key)
    ensures Compare(a, b) > 0 <==> Less(b, a)
  {
  }
}
