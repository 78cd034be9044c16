/** What holds in every run of a catch-up subscription, reconnections, overflows and drops included. */
module CatchUpCoherence {
  import opened Wrappers
  import opened CatchUp
  import opened CatchUpRuns

  /** The flags of the client: one listener at most, only between runs, and one activation of the live queue. */
  ghost predicate FlagsOk(c: Client) {
    && c.listeners <= 1 && (c.listeners > 0 ==> c.run.Idle? && c.allowProcessing && !c.shouldStop)
    && (c.isProcessing <==> !c.live.Off?) && (!c.allowProcessing ==> c.live.Off?)
  }

  ghost predicate QueueInLog(queue: seq<Item>, log: seq<Event>) {
    forall i :: 0 <= i < |queue| && queue[i].Pushed? ==> queue[i].event in log
  }

  /** Everything before the read cursor has been processed, and what is still in hand comes from the log. */
  ghost predicate CursorsOk(w: World) {
    && ServerOk(w) && Read(w) <= Processed(w) && QueueInLog(w.client.liveQueue, w.log)
    && (w.client.run.InSlice? ==> SliceTail(w, w.client.run.rest, w.client.run.slice, None, 0))
    && (w.client.run.AwaitHandler? ==> SliceTail(w, w.client.run.rest, w.client.run.slice, None, 0))
  }

  ghost predicate Coherent(w: World) {
    && CursorsOk(w) && FlagsOk(w.client)
    && (w.push.Some? ==> w.push.value <= |w.log|) && (w.confirm.Some? ==> w.client.run.Subscribing?)
  }

  // ---- Flags ----

  lemma DropRequestFlags(c: Client, reason: Reason)
    requires FlagsOk(c)
    ensures FlagsOk(EnqueueSubscriptionDropNotification(c, reason))
  {
  }

  lemma PushFlags(c: Client, e: Event)
    requires FlagsOk(c)
    ensures FlagsOk(EnqueuePushedEvent(c, e))
  {
    hide EnqueueSubscriptionDropNotification, Frame, ReadKept, QueueKept, SameDelivery;
    DropRequestFlags(c, ProcessingQueueOverflow);
  }

  lemma DropFlags(c: Client, reason: Reason)
    ensures FlagsOk(DropSubscription(c, reason)) <==> FlagsOk(c)
    ensures var d := DropSubscription(c, reason);
            && d.run == c.run && d.listeners == c.listeners && d.allowProcessing == c.allowProcessing
            && d.shouldStop == c.shouldStop && d.live == c.live && d.isProcessing == c.isProcessing
  {
  }

  lemma StopFlags(c: Client)
    requires FlagsOk(c)
    ensures FlagsOk(StopRequested(c))
  {
    hide EnqueueSubscriptionDropNotification;
    DropRequestFlags(c.(listeners := if c.listeners > 0 then c.listeners - 1 else 0, shouldStop := true),
        UserInitiated);
  }

  lemma FailFlags(c: Client)
    requires FlagsOk(c)
    ensures FlagsOk(FailRun(c))
  {
    hide DropSubscription;
    DropFlags(c, CatchUpError);
  }

  lemma EndFlags(c: Client)
    requires FlagsOk(c) && !c.run.Idle?
    ensures FlagsOk(EndRun(c))
  {
    hide DropSubscription;
    DropFlags(c, UserInitiated);
  }

  lemma FinishFlags(c: Client, till: Option<Key>)
    requires FlagsOk(c) && !c.run.Idle?
    ensures FlagsOk(FinishRead(c, till))
  {
    hide EndRun;
    EndFlags(c);
  }

  lemma TryFlags(c: Client, e: Event, throws: bool)
    ensures var d := TryProcess(c, e, throws);
            && d.listeners == c.listeners && d.run == c.run && d.shouldStop == c.shouldStop && d.live == c.live
            && d.isProcessing == c.isProcessing && d.allowProcessing == c.allowProcessing
  {
    hide Less;
  }

  lemma SliceFlags(c: Client, throws: bool)
    requires FlagsOk(c) && c.run.InSlice?
    ensures FlagsOk(ProcessEvents(c, throws))
  {
    hide TryProcess, Handles, FailRun, FinishRead, ReadDone;
    if c.run.rest == [] {
      FinishFlags(c.(nextRead := c.run.slice.next), c.run.till);
    } else {
      TryFlags(c, c.run.rest[0], throws);
      FailFlags(TryProcess(c, c.run.rest[0], throws));
    }
  }

  lemma ReadFlags(c: Client, r: ReadResult)
    requires FlagsOk(c) && c.run.AwaitSlice?
    ensures FlagsOk(OnReadResult(c, r))
  {
    hide FailRun, FinishRead;
    FailFlags(c);
    FinishFlags(c, c.run.till);
  }

  lemma LiveFlags(c: Client, throws: bool)
    requires FlagsOk(c) && !c.live.Off?
    ensures FlagsOk(ProcessLiveQueue(c, throws))
  {
    hide TryProcess, Handles, DropSubscription;
    if c.liveQueue != [] {
      match c.liveQueue[0]
      case DropMarker =>
        var reason := if c.dropData.Some? then c.dropData.value else Unknown;
        DropFlags(Shift(c).(dropData := Some(reason)), reason);
      case Pushed(e) =>
        TryFlags(Shift(c), e, throws);
        DropFlags(TryProcess(Shift(c), e, throws), EventHandlerException);
    }
  }

  lemma LiveSettledFlags(c: Client, fulfilled: bool, throws: bool)
    requires FlagsOk(c) && !c.live.Off?
    ensures FlagsOk(OnLiveSettled(c, fulfilled, throws))
  {
    hide ProcessLiveQueue, DropSubscription;
    LiveFlags(c, throws);
    DropFlags(c, EventHandlerException);
  }

  lemma ReactFlags(c: Client, i: Input)
    requires FlagsOk(c)
    ensures FlagsOk(React(c, i))
  {
    hide FlagsOk, OnReadResult, ProcessEvents, FailRun, EnqueuePushedEvent, EnqueueSubscriptionDropNotification,
      StopRequested, ProcessLiveQueue, OnLiveSettled;
    match i
    case ReadArrived(r) => if c.run.AwaitSlice? { ReadFlags(c, r); }
    case SliceContinues(throws) => if c.run.InSlice? { SliceFlags(c, throws); }
    case HandlerSettled(ok) => if c.run.AwaitHandler? { ChainFlags(c, ok); }
    case SubscribeConfirmed(till) => if c.run.Subscribing? { SubscribedFlags(c, till); }
    case SubscribeFailed => FailFlags(c);
    case EventPushed(e) => PushFlags(c, e);
    case ServerDropped(reason) => DropRequestFlags(c, reason);
    case StopCalled => StopFlags(c);
    case LiveContinues(throws) => if c.live.Scheduled? { LiveFlags(c, throws); }
    case LiveSettled(ok, throws) => if c.live.Awaiting? { LiveSettledFlags(c, ok, throws); }
    case Reconnected => if c.listeners > 0 { ReconnectedFlags(c); }
  }

  lemma ChainFlags(c: Client, fulfilled: bool)
    requires FlagsOk(c) && c.run.AwaitHandler?
    ensures FlagsOk(OnHandlerSettled(c, fulfilled))
  {
    hide FailRun;
    FailFlags(c);
  }

  lemma SubscribedFlags(c: Client, till: Key)
    requires FlagsOk(c) && c.run.Subscribing?
    ensures FlagsOk(OnSubscribed(c, till))
  {
  }

  lemma ReconnectedFlags(c: Client)
    requires FlagsOk(c) && c.listeners > 0
    ensures FlagsOk(RunSubscription(c.(listeners := c.listeners - 1)))
  {
  }

  // ---- Cursors ----

  /** Where `CursorsOk` looks at a client. */
  ghost predicate SameCursors(c: Client, d: Client) {
    d.nextRead == c.nextRead && SameDelivery(c, d) && d.isSubscribedToAll == c.isSubscribedToAll
  }

  /** A step that moves neither cursor and brings nothing new into the queue. */
  lemma CursorsFrame(w: World, d: Client)
    requires CursorsOk(w) && SameCursors(w.client, d) && QueueInLog(d.liveQueue, w.log)
    requires d.run == w.client.run || !(d.run.InSlice? || d.run.AwaitHandler?)
    ensures CursorsOk(w.(client := d))
  {
    hide Less, Compare, Idx, IdxAfter, QueueInLog;
    ServerOkFrame(w, w.(client := d));
    SliceTailFrame(w, w.(client := d), 0);
  }

  lemma CursorsAppend(w: World, e: Event, floor: Key)
    requires CursorsOk(w) && Enabled(w, Append(e, floor))
    ensures CursorsOk(Step(w, Append(e, floor)))
  {
    hide ServerOk, SliceTail, Less;
    ServerOkAppend(w, e, floor);
    NextBelowFloor(w);
    BelowFloor(w, w.client.nextRead, e);
    AppendKeepsIndices(w.log, e, w.client.nextRead, w.client.lastProcessed);
    if w.client.run.InSlice? || w.client.run.AwaitHandler? {
      SliceTailAppend(w, e, floor, w.client.run.rest, w.client.run.slice, None, 0);
    }
  }

  lemma ProcessedGrows(log: seq<Event>, last: Key, i: nat)
    requires Sorted(log) && i < |log| && Less(last, log[i].key)
    ensures IdxAfter(log, last) <= i && IdxAfter(log, log[i].key) == i + 1
  {
    hide Less;
    IdxAfterSplits(log, last);
    IdxAfterAt(log, i);
  }

  /** Trying an event of the log moves the delivery cursor forwards or not at all. */
  lemma TryCursors(w: World, e: Event, throws: bool)
    requires ServerOk(w) && e in w.log
    ensures var v := w.(client := TryProcess(w.client, e, throws));
            && ServerOk(v) && Processed(w) <= Processed(v)
            && (!throws || !Handles(w.client, e) ==> exists i :: 0 <= i < |w.log| && w.log[i] == e && i < Processed(v))
  {
    hide Idx, IdxAfter;
    var i :| 0 <= i < |w.log| && w.log[i] == e;
    if Handles(w.client, e) {
      ProcessedGrows(w.log, w.client.lastProcessed, i);
    } else {
      IdxAfterSplits(w.log, w.client.lastProcessed);
    }
  }

  /** The rest of a slice stays in order while the delivery cursor moves forwards. */
  lemma TailForwards(w: World, v: World, rest: seq<Event>, s: Slice)
    requires SliceTail(w, rest, s, None, 0) && v.log == w.log && v.floor == w.floor && Processed(w) <= Processed(v)
    ensures SliceTail(v, rest, s, None, 0)
  {
    hide Less, Idx, IdxAfter;
  }

  lemma LiveCursors(w: World, throws: bool)
    requires CursorsOk(w)
    ensures CursorsOk(w.(client := ProcessLiveQueue(w.client, throws)))
  {
    hide Less, Idx, IdxAfter, SliceTail, ServerOk, ProcessDropMarker, ProcessPushed, StopLive;
    var c := w.client;
    if c.liveQueue != [] {
      match c.liveQueue[0]
      case DropMarker =>
        MarkerKeeps(Shift(c));
        CursorsFrame(w, ProcessDropMarker(Shift(c)));
      case Pushed(e) =>
        assert e in w.log;
        PushedCursors(w, e, throws);
    } else {
      StopKeeps(c);
      CursorsFrame(w, StopLive(c));
    }
  }

  lemma StopKeeps(c: Client)
    ensures SameCursors(c, StopLive(c)) && StopLive(c).run == c.run && StopLive(c).liveQueue == c.liveQueue
  {
  }

  lemma MarkerKeeps(c: Client)
    ensures var d := ProcessDropMarker(c); SameCursors(c, d) && d.run == c.run && d.liveQueue == c.liveQueue
  {
    hide DropSubscription;
    DropKeeps(c.(dropData := Some(if c.dropData.Some? then c.dropData.value else Unknown)),
              if c.dropData.Some? then c.dropData.value else Unknown);
  }

  lemma PushedCursors(w: World, e: Event, throws: bool)
    requires CursorsOk(w) && w.client.liveQueue != [] && e in w.log
    ensures CursorsOk(w.(client := ProcessPushed(Shift(w.client), e, throws)))
  {
    hide Less, Idx, IdxAfter, SliceTail, ServerOk, DropSubscription;
    var c := w.client;
    var v, tried := w.(client := TryProcess(c, e, throws)), w.(client := ProcessPushed(Shift(c), e, throws));
    TryCursors(w, e, throws);
    PushedKeeps(Shift(c), e, throws);
    TryFlags(Shift(c), e, throws);
    ServerOkFrame(v, tried);
    if c.run.InSlice? || c.run.AwaitHandler? {
      TailForwards(w, tried, c.run.rest, c.run.slice);
    }
  }

  lemma PushedKeeps(c: Client, e: Event, throws: bool)
    ensures var (d, t) := (ProcessPushed(c, e, throws), TryProcess(c, e, throws));
            SameCursors(t, d) && d.run == c.run && d.liveQueue == c.liveQueue && t.nextRead == c.nextRead
  {
    hide Less, DropSubscription;
    DropKeeps(TryProcess(c, e, throws), EventHandlerException);
  }

  lemma RestInLog(w: World, rest: seq<Event>, s: Slice)
    requires SliceTail(w, rest, s, None, 0) && rest != []
    ensures rest[0] in w.log
    ensures rest[0] == w.log[Idx(w.log, s.next) - |rest|]
  {
  }

  /** One event of the slice: looked at, it is behind the delivery cursor, unless its handler threw. */
  lemma NextCursors(w: World, throws: bool)
    requires CursorsOk(w) && w.client.run.InSlice? && w.client.run.rest != []
    ensures CursorsOk(w.(client := ProcessNext(w.client, throws)))
  {
    hide Less, Idx, IdxAfter, ServerOk, DropSubscription, Handles, SliceTail;
    var c, e := w.client, w.client.run.rest[0];
    var v := w.(client := TryProcess(c, e, throws));
    RestInLog(w, c.run.rest, c.run.slice);
    TryCursors(w, e, throws);
    DropKeeps(TryProcess(c, e, throws), CatchUpError);
    TryKeeps(c, e, throws);
    var d := ProcessNext(c, throws);
    ServerOkFrame(v, w.(client := d));
    if d.run.InSlice? || d.run.AwaitHandler? {
      SortedOf(w);
      TailAdvances(w, w.(client := d), c.run.rest, c.run.slice);
    }
  }

  lemma TryKeeps(c: Client, e: Event, throws: bool)
    ensures var d := TryProcess(c, e, throws); d.nextRead == c.nextRead && d.liveQueue == c.liveQueue
  {
    hide Less;
  }

  lemma TailAdvances(w: World, v: World, rest: seq<Event>, s: Slice)
    requires SliceTail(w, rest, s, None, 0) && rest != [] && Sorted(w.log) && v.log == w.log && v.floor == w.floor
    requires Processed(w) <= Processed(v)
    requires exists i :: 0 <= i < |w.log| && w.log[i] == rest[0] && i < Processed(v)
    ensures SliceTail(v, rest[1..], s, None, 0)
  {
    hide Idx, IdxAfter;
    var k := Idx(w.log, s.next);
    var i :| 0 <= i < |w.log| && w.log[i] == rest[0] && i < Processed(v);
    assert rest[0] == w.log[k - |rest|];
    assert i == k - |rest| by { SortedDistinct(w.log, i, k - |rest|); }
  }

  lemma SortedDistinct(log: seq<Event>, i: nat, j: nat)
    requires Sorted(log) && i < |log| && j < |log| && log[i] == log[j]
    ensures i == j
  {
  }

  /** The slice is worked off: the read cursor follows, not past the delivery cursor. */
  lemma FinishedCursors(w: World)
    requires CursorsOk(w) && w.client.run.InSlice? && w.client.run.rest == []
    ensures CursorsOk(w.(client := SliceFinished(w.client)))
  {
    hide Less, Compare, Idx, IdxAfter, EndRun, ReadDone, QueueInLog;
    var c := w.client;
    var moved := c.(nextRead := c.run.slice.next, run := AwaitSlice(c.run.till));
    var v := w.(client := moved);
    assert CursorsOk(v);
    EndKeeps(c.(nextRead := c.run.slice.next));
    CursorsFrame(v, SliceFinished(c));
  }

  lemma EndKeeps(c: Client)
    ensures var d := EndRun(c); SameCursors(c, d) && d.run.Idle? && d.liveQueue == c.liveQueue
  {
    hide DropSubscription;
    DropKeeps(c, UserInitiated);
  }

  lemma FailKeeps(c: Client)
    ensures var d := FailRun(c); SameCursors(c, d) && d.run.Idle? && d.liveQueue == c.liveQueue
  {
    hide DropSubscription;
    DropKeeps(c, CatchUpError);
  }

  lemma ReadCursors(w: World, r: ReadResult)
    requires CursorsOk(w) && Enabled(w, ToClient(ReadArrived(r)))
    ensures CursorsOk(w.(client := React(w.client, ReadArrived(r))))
  {
    hide Less, Compare, FailRun, EndRun, QueueInLog, ServerOk, SliceOk, SliceTail;
    var c := w.client;
    if c.run.AwaitSlice? {
      FailKeeps(c);
      EndKeeps(c);
      match r
      case SliceRead(s) =>
        SliceTailOf(w, s, c.run.till, 0);
        var d := c.(run := InSlice(s.events, s, c.run.till));
        ServerOkFrame(w, w.(client := d));
        AnyTail(w, w.(client := d), s.events, s, c.run.till);
      case Failed => CursorsFrame(w, FailRun(c));
      case StreamNotFound =>
        if c.run.till.Some? && c.run.till.value != EventNumber(-1) {
          CursorsFrame(w, FailRun(c));
        } else {
          CursorsFrame(w, FinishRead(c, c.run.till));
        }
    }
  }

  lemma AnyTail(w: World, v: World, rest: seq<Event>, s: Slice, till: Option<Key>)
    requires SliceTail(w, rest, s, till, 0) && v.log == w.log && v.floor == w.floor
    requires v.client.lastProcessed == w.client.lastProcessed
    ensures SliceTail(v, rest, s, None, 0)
  {
    hide Less, Idx, IdxAfter;
  }

  lemma DropRequestCursors(w: World, c: Client, reason: Reason)
    requires CursorsOk(w) && SameCursors(w.client, c) && c.run == w.client.run && c.liveQueue == w.client.liveQueue
    ensures CursorsOk(w.(client := EnqueueSubscriptionDropNotification(c, reason)))
  {
    hide CursorsOk;
    var d := EnqueueSubscriptionDropNotification(c, reason);
    assert QueueInLog(d.liveQueue, w.log) by { QueueOf(w); }
    CursorsFrame(w, d);
  }

  lemma QueueOf(w: World)
    requires CursorsOk(w)
    ensures QueueInLog(w.client.liveQueue, w.log)
  {
  }

  lemma PushCursors(w: World, e: Event)
    requires CursorsOk(w) && e in w.log
    ensures CursorsOk(w.(client := EnqueuePushedEvent(w.client, e)))
  {
    hide CursorsOk, EnqueueSubscriptionDropNotification;
    var c := w.client;
    var d := EnqueuePushedEvent(c, e);
    QueueOf(w);
    if |c.liveQueue| >= c.maxPushQueueSize {
      var m := EnqueueSubscriptionDropNotification(c, ProcessingQueueOverflow);
      DropRequestCursors(w, c, ProcessingQueueOverflow);
      DropRequestKeeps(c, ProcessingQueueOverflow);
      CursorsFrame(w.(client := m), d) by { QueueOf(w.(client := m)); }
    } else {
      CursorsFrame(w, d);
    }
  }

  lemma LiveSettledCursors(w: World, fulfilled: bool, throws: bool)
    requires CursorsOk(w)
    ensures CursorsOk(w.(client := OnLiveSettled(w.client, fulfilled, throws)))
  {
    hide CursorsOk, ProcessLiveQueue, DropSubscription;
    if fulfilled {
      LiveCursors(w, throws);
    } else {
      DropKeeps(w.client, EventHandlerException);
      QueueOf(w);
      CursorsFrame(w, OnLiveSettled(w.client, false, throws));
    }
  }

  lemma StopCursors(w: World)
    requires CursorsOk(w)
    ensures CursorsOk(w.(client := StopRequested(w.client)))
  {
    hide CursorsOk, EnqueueSubscriptionDropNotification;
    var c := w.client;
    DropRequestCursors(
      w, c.(listeners := if c.listeners > 0 then c.listeners - 1 else 0, shouldStop := true), UserInitiated);
  }

  lemma ReactCursors(w: World, i: Input)
    requires CursorsOk(w) && Enabled(w, ToClient(i))
    ensures CursorsOk(w.(client := React(w.client, i)))
  {
    hide CursorsOk, OnReadResult, ProcessNext, SliceFinished, FailRun, EnqueuePushedEvent,
      EnqueueSubscriptionDropNotification, StopRequested, ProcessLiveQueue, OnLiveSettled, SliceOk, Less, Compare, Idx,
      Frame, QueueInLog;
    var c := w.client;
    QueueOf(w);
    FailKeeps(c);
    match i
    case ReadArrived(r) => ReadCursors(w, r);
    case SliceContinues(throws) =>
      if c.run.InSlice? {
        if c.run.rest == [] { FinishedCursors(w); } else { NextCursors(w, throws); }
      }
    case HandlerSettled(ok) =>
      if c.run.AwaitHandler? {
        if ok { ResumeSlice(w); } else { CursorsFrame(w, FailRun(c)); }
      }
    case SubscribeConfirmed(till) => if c.run.Subscribing? { CursorsFrame(w, OnSubscribed(c, till)); }
    case SubscribeFailed => if c.run.Subscribing? { CursorsFrame(w, FailRun(c)); }
    case EventPushed(e) => PushCursors(w, e);
    case ServerDropped(reason) => DropRequestCursors(w, c, reason);
    case StopCalled => StopCursors(w);
    case LiveContinues(throws) => if c.live.Scheduled? { LiveCursors(w, throws); }
    case LiveSettled(ok, throws) =>
      if c.live.Awaiting? && (ok || c.live.called) { LiveSettledCursors(w, ok, throws); }
    case Reconnected => if c.listeners > 0 { CursorsFrame(w, RunSubscription(c.(listeners := c.listeners - 1))); }
  }

  lemma ResumeSlice(w: World)
    requires CursorsOk(w) && w.client.run.AwaitHandler?
    ensures CursorsOk(w.(client := OnHandlerSettled(w.client, true)))
  {
    hide Less, Idx, IdxAfter, QueueInLog;
    var v := w.(client := OnHandlerSettled(w.client, true));
    ServerOkFrame(w, v);
    SliceTailFrame(w, v, 0);
  }

  // ---- Every step, every run ----

  lemma CoherentStep(w: World, a: Action)
    requires Coherent(w) && Enabled(w, a)
    ensures Coherent(Step(w, a))
  {
    hide CursorsOk, FlagsOk, React, SliceOk, ConfirmOk, Less;
    match a
    case Append(e, floor) => CursorsAppend(w, e, floor);
    case Confirm(till) => SameClient(w, Step(w, a));
    case ConnectionLost => SameClient(w, Step(w, a));
    case ToClient(i) =>
      ReactFlags(w.client, i);
      ReactCursors(w, i);
      SameClient(w.(client := React(w.client, i)), Step(w, a));
      if w.confirm.Some? && !i.SubscribeConfirmed? {
        StaysSubscribing(w.client, i);
      }
  }

  lemma SameClient(w: World, v: World)
    requires CursorsOk(w) && v.client == w.client && v.log == w.log && v.floor == w.floor
    ensures CursorsOk(v)
  {
    var u := w.(push := v.push, confirm := v.confirm);
    OnlyLog(w, u);
    CursorsFrame(u, v.client);
  }

  lemma OnlyLog(w: World, v: World)
    requires CursorsOk(w) && v == w.(push := v.push, confirm := v.confirm)
    ensures CursorsOk(v)
  {
    hide Less, Idx, IdxAfter, QueueInLog;
    ServerOkFrame(w, v);
    SliceTailFrame(w, v, 0);
  }

  /**
   * Nothing but the answer to the request takes a run out of subscribing, nor, idle with no listener, a reconnection.
   */
  lemma StaysSubscribing(c: Client, i: Input)
    requires FlagsOk(c) && c.run.Subscribing? && !i.SubscribeConfirmed? && !i.SubscribeFailed?
    ensures React(c, i).run.Subscribing?
  {
    hide Less, ProcessLiveQueue, OnLiveSettled, EnqueueSubscriptionDropNotification, EnqueuePushedEvent, StopRequested;
    if Sideways(i) {
      SidewaysKeepsRun(c, i);
    }
  }

  predicate Sideways(i: Input) {
    i.EventPushed? || i.ServerDropped? || i.StopCalled? || i.LiveContinues? || i.LiveSettled?
  }

  /** Pushes, drop requests, stops and live turns leave the promise chain where it is. */
  lemma SidewaysKeepsRun(c: Client, i: Input)
    requires Sideways(i)
    ensures ReadKept(c, React(c, i)) && Frame(c, React(c, i))
  {
    hide Less, Compare, ProcessLiveQueue, OnLiveSettled, EnqueueSubscriptionDropNotification, EnqueuePushedEvent,
      StopRequested, Frame, ReadKept;
    FrameSelf(c);
    match i
    case LiveContinues(throws) => LiveKeepsRun(c, throws);
    case LiveSettled(ok, throws) =>
      LiveKeepsRun(c, throws);
      SettledKeepsRun(c, ok, throws);
    case _ =>
  }

  lemma LiveKeepsRun(c: Client, throws: bool)
    ensures ReadKept(c, ProcessLiveQueue(c, throws))
  {
    hide TryProcess, DropSubscription, Handles;
  }

  lemma SettledKeepsRun(c: Client, fulfilled: bool, throws: bool)
    requires ReadKept(c, ProcessLiveQueue(c, throws))
    ensures ReadKept(c, OnLiveSettled(c, fulfilled, throws))
  {
    hide ProcessLiveQueue, DropSubscription;
  }

  lemma InputFrame(c: Client, i: Input)
    requires !i.Reconnected?
    ensures Frame(c, React(c, i))
    ensures !(i.EventPushed? || i.ServerDropped? || i.StopCalled? || i.LiveContinues? || i.LiveSettled?) ==>
              QueueKept(c, React(c, i))
  {
    hide Frame, OnReadResult, ProcessEvents, OnHandlerSettled, OnSubscribed, FailRun, EnqueuePushedEvent,
      EnqueueSubscriptionDropNotification, StopRequested, ProcessLiveQueue, OnLiveSettled;
    FrameSelf(c);
  }

  lemma FrameSelf(c: Client)
    ensures Frame(c, c) && ReadKept(c, c)
  {
  }

  lemma {:induction false} CoherentExec(w: World, actions: seq<Action>)
    requires Coherent(w) && Possible(w, actions)
    ensures Coherent(Exec(w, actions))
    decreases |actions|
  {
    hide Coherent, Step, Enabled;
    if actions != [] {
      CoherentStep(w, actions[0]);
      CoherentExec(Step(w, actions[0]), actions[1..]);
    }
  }
}
