/** Reconnections of a catch-up subscription: which runs stay gap-free, and how the others lose an event. */
module CatchUpReconnections {
  import opened Wrappers
  import opened CatchUp
  import opened CatchUpCoherence
  import opened CatchUpRuns

  /**
   * A run is beginning, the first one or one after a reconnection. The live queue may still hold events and markers of
   * the last session, and a turn of it may be due.
   */
  ghost predicate Beginning(w: World) {
    Coherent(w) && w.client.run == AwaitSlice(None) && w.push.None? && w.confirm.None?
  }

  /** An input that makes the live queue take a turn. */
  predicate LiveTurn(c: Client, a: Action) {
    match a
    case ToClient(LiveContinues(_)) => c.live.Scheduled?
    case ToClient(LiveSettled(ok, _)) => c.live.Awaiting? && (ok || c.live.called)
    case _ => false
  }

  /**
   * The live queue takes no turn before the chain of reads has gone live, which is when the client listens for the next
   * reconnection.
   */
  ghost predicate TurnsInTime(w: World, live: bool, actions: seq<Action>)
    decreases |actions|
  {
    actions == []
    || ((live || !LiveTurn(w.client, actions[0]))
        && TurnsInTime(Step(w, actions[0]), live || Step(w, actions[0]).client.listeners > 0, actions[1..]))
  }

  // ---- Two clients that differ in the live side only ----

  /** The same place in the chain of reads, and the same deliveries. */
  ghost predicate Agree(c: Client, m: Client) {
    && m.isSubscribedToAll == c.isSubscribedToAll && m.nextRead == c.nextRead && SameDelivery(c, m)
    && m.run == c.run && m.shouldStop == c.shouldStop
  }

  /** A step that leaves the live side alone. */
  ghost predicate SideKept(c: Client, d: Client) {
    && d.liveQueue == c.liveQueue && d.allowProcessing == c.allowProcessing && d.live == c.live
    && d.listeners == c.listeners
  }

  /** What a run reads up to; the first read has no target. */
  function RunTill(run: Run): Option<Key> {
    match run
    case AwaitSlice(till) => till
    case InSlice(_, _, till) => till
    case AwaitHandler(_, _, till) => till
    case _ => None
  }

  /** A step in which the chain of reads goes live. */
  ghost predicate GoesLive(c: Client, d: Client) {
    d.liveQueue == c.liveQueue && d.allowProcessing && d.listeners == c.listeners + 1 && d.run.Idle?
        && SameDelivery(c, d)
  }

  ghost predicate BothMove(c: Client, m: Client, c1: Client, m1: Client) {
    && Agree(c1, m1)
    && ((SideKept(c, c1) && SideKept(m, m1)) || (GoesLive(c, c1) && GoesLive(m, m1) && RunTill(c.run).Some?))
    && (RunTill(c1.run).Some? ==> RunTill(c.run).Some? || c.run.Subscribing?)
  }

  lemma TryAgrees(c: Client, m: Client, e: Event, throws: bool)
    requires Agree(c, m)
    ensures var (c1, m1) := (TryProcess(c, e, throws), TryProcess(m, e, throws));
            Agree(c1, m1) && SideKept(c, c1) && SideKept(m, m1)
    ensures Handles(c, e) == Handles(m, e)
  {
    hide Less;
  }

  lemma DropSide(c: Client, reason: Reason)
    ensures var d := DropSubscription(c, reason); SideKept(c, d) && Agree(c, d)
  {
  }

  lemma FailAgrees(c: Client, m: Client)
    requires Agree(c, m)
    ensures BothMove(c, m, FailRun(c), FailRun(m))
    ensures SideKept(c, FailRun(c)) && SideKept(m, FailRun(m))
  {
    hide DropSubscription;
    DropSide(c, CatchUpError);
    DropSide(m, CatchUpError);
  }

  lemma EndAgrees(c: Client, m: Client)
    requires Agree(c, m) && RunTill(c.run).Some?
    ensures BothMove(c, m, EndRun(c), EndRun(m))
  {
    hide DropSubscription;
    DropSide(c, UserInitiated);
    DropSide(m, UserInitiated);
  }

  lemma FinishAgrees(c: Client, m: Client, till: Option<Key>)
    requires Agree(c, m) && till == RunTill(c.run)
    ensures BothMove(c, m, FinishRead(c, till), FinishRead(m, till))
  {
    hide EndRun;
    if till.Some? {
      EndAgrees(c, m);
    } else if c.shouldStop {
      StopAgrees(c, m);
    }
  }

  lemma StopAgrees(c: Client, m: Client)
    requires Agree(c, m) && c.shouldStop
    ensures BothMove(c, m, EndRun(c), EndRun(m))
  {
    hide DropSubscription;
    DropSide(c, UserInitiated);
    DropSide(m, UserInitiated);
  }

  lemma MovesFrom(c: Client, m: Client, next: Key, d: Client, e: Client)
    requires BothMove(c.(nextRead := next), m.(nextRead := next), d, e)
    ensures BothMove(c, m, d, e)
  {
  }

  lemma ReadsOnAgrees(c: Client, m: Client, next: Key)
    requires Agree(c, m) && c.run.InSlice?
    ensures var run := AwaitSlice(c.run.till);
            BothMove(c, m, c.(nextRead := next, run := run), m.(nextRead := next, run := run))
  {
  }

  lemma FinishedAgrees(c: Client, m: Client)
    requires Agree(c, m) && c.run.InSlice?
    ensures BothMove(c, m, SliceFinished(c), SliceFinished(m))
  {
    hide FinishRead, ReadDone, BothMove, Frame, QueueKept;
    var next, till := c.run.slice.next, c.run.till;
    var (c1, m1) := (c.(nextRead := next), m.(nextRead := next));
    FinishAgrees(c1, m1, till);
    MovesFrom(c, m, next, FinishRead(c1, till), FinishRead(m1, till));
    ReadsOnAgrees(c, m, next);
  }

  lemma NextAgrees(c: Client, m: Client, throws: bool)
    requires Agree(c, m) && c.run.InSlice? && c.run.rest != []
    ensures BothMove(c, m, ProcessNext(c, throws), ProcessNext(m, throws))
  {
    hide TryProcess, Handles, FailRun;
    var e := c.run.rest[0];
    TryAgrees(c, m, e, throws);
    FailAgrees(TryProcess(c, e, throws), TryProcess(m, e, throws));
  }

  lemma ReadAgrees(c: Client, m: Client, r: ReadResult)
    requires Agree(c, m) && c.run.AwaitSlice?
    ensures BothMove(c, m, OnReadResult(c, r), OnReadResult(m, r))
  {
    hide FinishRead, FailRun;
    FailAgrees(c, m);
    FinishAgrees(c, m, c.run.till);
  }

  lemma ChainAgrees(c: Client, m: Client, i: Input)
    requires Agree(c, m) && !Sideways(i) && !i.Reconnected?
    ensures BothMove(c, m, React(c, i), React(m, i))
  {
    hide OnReadResult, ProcessEvents, OnHandlerSettled, OnSubscribed, FailRun, BothMove;
    NoneMoves(c, m);
    match i
    case ReadArrived(r) => if c.run.AwaitSlice? { ReadAgrees(c, m, r); }
    case SliceContinues(throws) => if c.run.InSlice? { SliceAgrees(c, m, throws); }
    case HandlerSettled(ok) => if c.run.AwaitHandler? { SettledAgrees(c, m, ok); }
    case SubscribeConfirmed(till) => if c.run.Subscribing? { SubscribedAgrees(c, m, till); }
    case SubscribeFailed => FailAgrees(c, m);
  }

  lemma NoneMoves(c: Client, m: Client)
    requires Agree(c, m)
    ensures BothMove(c, m, c, m)
  {
  }

  lemma SliceAgrees(c: Client, m: Client, throws: bool)
    requires Agree(c, m) && c.run.InSlice?
    ensures BothMove(c, m, ProcessEvents(c, throws), ProcessEvents(m, throws))
  {
    hide SliceFinished, ProcessNext, BothMove;
    if c.run.rest == [] { FinishedAgrees(c, m); } else { NextAgrees(c, m, throws); }
  }

  lemma SettledAgrees(c: Client, m: Client, fulfilled: bool)
    requires Agree(c, m) && c.run.AwaitHandler?
    ensures BothMove(c, m, OnHandlerSettled(c, fulfilled), OnHandlerSettled(m, fulfilled))
  {
    hide FailRun;
    FailAgrees(c, m);
  }

  lemma SubscribedAgrees(c: Client, m: Client, till: Key)
    requires Agree(c, m) && c.run.Subscribing?
    ensures BothMove(c, m, OnSubscribed(c, till), OnSubscribed(m, till))
  {
  }

  /** An idle chain waits for nothing, and one that is subscribing for the confirmation or the failure only. */
  lemma ChainWaits(c: Client, i: Input)
    requires !Sideways(i) && !i.Reconnected?
    ensures c.run.Idle? ==> React(c, i) == c
    ensures c.run.Subscribing? && !i.SubscribeConfirmed? ==>
              RunTill(React(c, i).run).None? && (i.SubscribeFailed? || React(c, i) == c)
  {
  }

  // ---- The client without what is left of the last session ----

  /** The first `n` items of the queue left out. */
  function Tail(c: Client, n: nat): Client
    requires n <= |c.liveQueue|
  {
    c.(liveQueue := c.liveQueue[n..])
  }

  /** Moreover, as if live processing had never been allowed. */
  function Masked(c: Client, n: nat): Client
    requires n <= |c.liveQueue|
  {
    c.(liveQueue := c.liveQueue[n..], allowProcessing := false, isProcessing := false, live := Off)
  }

  /** The queue of `d` is that of `c` with something added at the end, and `m` holds the events behind the first `n`. */
  ghost predicate QueueGrows(c: Client, d: Client, n: nat, m: Client) {
    && n <= |c.liveQueue| <= |d.liveQueue| && d.liveQueue[..n] == c.liveQueue[..n]
    && EventsIn(d.liveQueue[n..]) == EventsIn(m.liveQueue)
  }

  /** What a request for a drop, a push and a stop leave alone. */
  ghost predicate ChainKept(c: Client, d: Client) {
    && d.isSubscribedToAll == c.isSubscribedToAll && d.nextRead == c.nextRead && SameDelivery(c, d) && d.run == c.run
    && d.allowProcessing == c.allowProcessing && (!c.allowProcessing ==> d.live == c.live)
  }

  lemma RequestGrows(c: Client, reason: Reason)
    ensures var d := EnqueueSubscriptionDropNotification(c, reason);
            && ChainKept(c, d) && d.listeners == c.listeners && d.shouldStop == c.shouldStop
            && (d.liveQueue == c.liveQueue || d.liveQueue == c.liveQueue + [DropMarker])
  {
  }

  lemma PushGrows(c: Client, e: Event)
    requires |c.liveQueue| < c.maxPushQueueSize
    ensures var d := EnqueuePushedEvent(c, e);
            && ChainKept(c, d) && d.listeners == c.listeners && d.shouldStop == c.shouldStop
            && d.liveQueue == c.liveQueue + [Pushed(e)]
  {
  }

  lemma StopGrows(c: Client)
    ensures var d := StopRequested(c);
            && ChainKept(c, d) && d.listeners <= c.listeners && d.shouldStop
            && (d.liveQueue == c.liveQueue || d.liveQueue == c.liveQueue + [DropMarker])
  {
    hide EnqueueSubscriptionDropNotification;
    RequestGrows(c.(listeners := if c.listeners > 0 then c.listeners - 1 else 0, shouldStop := true), UserInitiated);
  }

  lemma SideGrows(c: Client, i: Input)
    requires i.EventPushed? || i.ServerDropped? || i.StopCalled?
    requires i.EventPushed? ==> |c.liveQueue| < c.maxPushQueueSize
    ensures var d := React(c, i);
            && ChainKept(c, d) && d.listeners <= c.listeners && d.shouldStop == (c.shouldStop || i.StopCalled?)
            && (if i.EventPushed? then d.liveQueue == c.liveQueue + [Pushed(i.event)]
                else d.liveQueue == c.liveQueue || d.liveQueue == c.liveQueue + [DropMarker])
  {
    hide EnqueuePushedEvent, EnqueueSubscriptionDropNotification, StopRequested;
    match i
    case EventPushed(e) => PushGrows(c, e);
    case ServerDropped(reason) => RequestGrows(c, reason);
    case StopCalled => StopGrows(c);
  }

  lemma EventsOfEnd(q: seq<Item>, n: nat, x: Item)
    requires n <= |q|
    ensures EventsIn((q + [x])[n..]) == EventsIn(q[n..]) + (if x.Pushed? then [x.event] else [])
  {
    assert (q + [x])[n..] == q[n..] + [x];
    EventsInSnoc(q[n..], x);
  }

  /** An input that is no turn of the live queue, on a client and on a view of it. */
  lemma ViewReact(c: Client, n: nat, m: Client, i: Input)
    requires n <= |c.liveQueue| && (m == Tail(c, n) || m == Masked(c, n))
    requires !i.Reconnected? && !i.LiveContinues? && !i.LiveSettled?
    requires i.EventPushed? ==> |c.liveQueue| < c.maxPushQueueSize
    ensures var (c1, m1) := (React(c, i), React(m, i));
            && Agree(c1, m1) && QueueGrows(c, c1, n, m1)
            && ((m1.allowProcessing == m.allowProcessing && c1.allowProcessing == c.allowProcessing
                 && (!m.allowProcessing ==> m1.live == m.live) && c1.listeners <= c.listeners)
                || (m1.allowProcessing && c1.allowProcessing && c1.listeners == c.listeners + 1 && c1.run.Idle?
                    && SameDelivery(c, c1) && RunTill(c.run).Some?))
            && (c.run.Idle? ==> SameDelivery(c, c1) && c1.run.Idle?)
            && (RunTill(c1.run).Some? ==> RunTill(c.run).Some? || (c.run.Subscribing? && i.SubscribeConfirmed?))
            && (c.run.Subscribing? && !i.SubscribeConfirmed? && !i.SubscribeFailed? ==> c1.run.Subscribing?)
  {
    hide React, EventsIn, Less;
    if Sideways(i) {
      SideGrows(c, i);
      SideGrows(m, i);
      EventsOfEnd(c.liveQueue, n, DropMarker);
      EventsOfEnd(m.liveQueue, 0, DropMarker);
      assert m.liveQueue[0..] == m.liveQueue && (m.liveQueue + [DropMarker])[0..] == m.liveQueue + [DropMarker];
      if i.EventPushed? {
        EventsOfEnd(c.liveQueue, n, Pushed(i.event));
        EventsOfEnd(m.liveQueue, 0, Pushed(i.event));
        assert (m.liveQueue + [Pushed(i.event)])[0..] == m.liveQueue + [Pushed(i.event)];
      }
    } else {
      ChainAgrees(c, m, i);
      ChainWaits(c, i);
    }
  }

  // ---- Reading, before the chain has gone live ----

  function MaskedWorld(w: World, n: nat): World
    requires n <= |w.client.liveQueue|
  {
    w.(client := Masked(w.client, n))
  }

  function TailWorld(w: World, n: nat): World
    requires n <= |w.client.liveQueue|
  {
    w.(client := Tail(w.client, n))
  }

  /** The first `n` items are left from before, when the log had `b` events. */
  ghost predicate Leftover(queue: seq<Item>, n: nat, log: seq<Event>, b: nat) {
    n <= |queue| && b <= |log| && forall i :: 0 <= i < n && queue[i].Pushed? ==> queue[i].event in log[..b]
  }

  /** The confirmation, once given, covers the log as it was at the beginning. */
  ghost predicate TargetPast(w: World, f: nat, b: nat) {
    w.confirm.Some? || RunTill(w.client.run).Some? ==> b <= f
  }

  ghost predicate Reading(w: World, n: nat, c0: nat, p0: nat, f: nat, b: nat) {
    && Leftover(w.client.liveQueue, n, w.log, b) && w.client.listeners == 0 && TargetPast(w, f, b)
    && (w.confirm.Some? ==> w.client.run.Subscribing?)
    && Inv(MaskedWorld(w, n), c0, p0, f)
  }

  /** What is left of the queue will be passed over. */
  ghost predicate PassedOver(c: Client, n: nat) {
    n <= |c.liveQueue| && forall i :: 0 <= i < n && c.liveQueue[i].Pushed? ==> !Handles(c, c.liveQueue[i].event)
  }

  ghost predicate Serving(w: World, n: nat, c0: nat, p0: nat, f: nat) {
    w.client.allowProcessing && PassedOver(w.client, n) && Inv(TailWorld(w, n), c0, p0, f)
  }

  /** The view of a world reacts to the same actions. */
  lemma ViewEnabled(w: World, n: nat, m: Client, a: Action)
    requires n <= |w.client.liveQueue| && (m == Tail(w.client, n) || m == Masked(w.client, n))
    requires Enabled(w, a) && Calm(w, a)
    ensures Enabled(w.(client := m), a) && Calm(w.(client := m), a)
  {
    hide Less, Compare, Idx;
  }

  lemma CoreOfViews(c1: Client, n: nat, m1: Client)
    requires n <= |c1.liveQueue| && Agree(c1, m1) && EventsIn(c1.liveQueue[n..]) == EventsIn(m1.liveQueue)
    ensures SameCore(m1, Tail(c1, n)) && SameCore(m1, Masked(c1, n))
  {
    hide EventsIn;
  }

  lemma ReadingServer(w: World, a: Action, n: nat, c0: nat, p0: nat, f: nat, b: nat) returns (f': nat)
    requires Reading(w, n, c0, p0, f, b) && Enabled(w, a) && !a.ToClient?
    ensures Reading(Step(w, a), n, c0, p0, f', b)
  {
    hide Inv, Less, Leftover, ConfirmOk;
    LeftoverBound(w.client.liveQueue, n, w.log, b);
    f' := InvStep(MaskedWorld(w, n), a, c0, p0, f);
    if a.Append? {
      LeftoverAppend(w.client.liveQueue, n, w.log, b, a.event);
    }
  }

  lemma LeftoverAppend(queue: seq<Item>, n: nat, log: seq<Event>, b: nat, e: Event)
    requires Leftover(queue, n, log, b)
    ensures Leftover(queue, n, log + [e], b)
  {
    assert (log + [e])[..b] == log[..b];
  }

  lemma LeftoverBound(queue: seq<Item>, n: nat, log: seq<Event>, b: nat)
    requires Leftover(queue, n, log, b)
    ensures b <= |log| && n <= |queue|
  {
  }

  lemma LeftoverKept(queue: seq<Item>, more: seq<Item>, n: nat, log: seq<Event>, b: nat)
    requires Leftover(queue, n, log, b) && |queue| <= |more| && more[..n] == queue[..n]
    ensures Leftover(more, n, log, b)
  {
    assert forall i :: 0 <= i < n ==> more[i] == more[..n][i] == queue[..n][i] == queue[i];
  }

  /** A turn that is not due, or that may not be taken, has no effect. */
  lemma NoTurn(c: Client, i: Input)
    requires (i.LiveContinues? || i.LiveSettled?) && !LiveTurn(c, ToClient(i))
    ensures React(c, i) == c
  {
  }

  lemma ReadingInput(w: World, i: Input, n: nat, c0: nat, p0: nat, f: nat, b: nat)
    requires Reading(w, n, c0, p0, f, b) && Enabled(w, ToClient(i)) && Calm(w, ToClient(i))
    requires !i.LiveContinues? && !i.LiveSettled?
    ensures var v := Step(w, ToClient(i));
            if v.client.listeners == 0 then Reading(v, n, c0, p0, f, b) else Serving(v, n, c0, p0, f)
  {
    hide Inv, Less, Leftover, PassedOver, React, SliceOk, EventsIn, Handles;
    LeftoverBound(w.client.liveQueue, n, w.log, b);
    var a, c, m := ToClient(i), w.client, Masked(w.client, n);
    var v, u := Step(w, a), Step(MaskedWorld(w, n), a);
    ViewEnabled(w, n, m, a);
    ViewReact(c, n, m, i);
    var f' := InvStep(MaskedWorld(w, n), a, c0, p0, f);
    var c1, m1 := React(c, i), React(m, i);
    CoreOfViews(c1, n, m1);
    LeftoverKept(c.liveQueue, c1.liveQueue, n, w.log, b);
    if m1.allowProcessing {
      InvFrame(u, Tail(c1, n), c0, p0, f);
      DeliveredAll(w, n, v, c0, p0, f, b);
    } else {
      InvFrame(u, Masked(c1, n), c0, p0, f);
    }
  }

  /** When the chain goes live, everything left from before lies behind the delivery cursor. */
  lemma DeliveredAll(w: World, n: nat, v: World, c0: nat, p0: nat, f: nat, b: nat)
    requires Reading(w, n, c0, p0, f, b) && RunTill(w.client.run).Some?
    requires v.log == w.log && SameDelivery(w.client, v.client) && v.client.allowProcessing
    requires Leftover(v.client.liveQueue, n, w.log, b) && Inv(TailWorld(v, n), c0, p0, f)
    ensures PassedOver(v.client, n)
  {
    hide Less, Idx, IdxAfter, EventsIn, CallsAre, QueueFrom, CatchingUp;
    assert b <= f <= Processed(v);
    IdxAfterSplits(v.log, v.client.lastProcessed);
    forall i | 0 <= i < n && v.client.liveQueue[i].Pushed? ensures !Handles(v.client, v.client.liveQueue[i].event) {
      var e := v.client.liveQueue[i].event;
      var j :| 0 <= j < b && w.log[..b][j] == e;
      assert w.log[j] == e;
    }
  }

  // ---- Serving, once the chain has gone live ----

  lemma ServingInput(w: World, a: Action, n: nat, c0: nat, p0: nat, f: nat) returns (f': nat)
    requires Serving(w, n, c0, p0, f) && Enabled(w, a) && Calm(w, a)
    requires a.ToClient? ==> !a.input.LiveContinues? && !a.input.LiveSettled?
    ensures Serving(Step(w, a), n, c0, p0, f')
  {
    hide Inv, Less, PassedOver, React, SliceOk, EventsIn, Handles, ConfirmOk;
    PassedOverBound(w.client, n);
    var c, m := w.client, Tail(w.client, n);
    ViewEnabled(w, n, m, a);
    f' := InvStep(TailWorld(w, n), a, c0, p0, f);
    if a.ToClient? {
      var c1, m1 := React(c, a.input), React(m, a.input);
      ViewReact(c, n, m, a.input);
      ServingIdle(w, n, c0, p0, f);
      CoreOfViews(c1, n, m1);
      InvFrame(Step(TailWorld(w, n), a), Tail(c1, n), c0, p0, f');
      PassedOverKept(c, c1, n);
    }
  }

  lemma PassedOverBound(c: Client, n: nat)
    requires PassedOver(c, n)
    ensures n <= |c.liveQueue|
  {
  }

  lemma PassedOverKept(c: Client, d: Client, n: nat)
    requires PassedOver(c, n) && d.lastProcessed == c.lastProcessed
    requires n <= |d.liveQueue| && d.liveQueue[..n] == c.liveQueue[..n]
    ensures PassedOver(d, n)
  {
    hide Less;
    assert forall i :: 0 <= i < n ==> d.liveQueue[i] == d.liveQueue[..n][i] == c.liveQueue[..n][i] == c.liveQueue[i];
  }

  lemma ServingIdle(w: World, n: nat, c0: nat, p0: nat, f: nat)
    requires Serving(w, n, c0, p0, f)
    ensures w.client.run.Idle? && n <= |w.client.liveQueue|
  {
    hide Less, EventsIn, CallsAre, QueueFrom, ServerOk;
  }

  /** A turn that meets something left from before: a marker, or an event that is passed over. */
  lemma OldTurn(c: Client, n: nat, throws: bool)
    requires PassedOver(c, n) && n > 0
    ensures PassesOver(c, ProcessLiveQueue(c, throws))
  {
    hide Less, DropSubscription, ProcessDropMarker, ProcessPushed, PassesOver;
    match c.liveQueue[0]
    case DropMarker => OldMarker(c);
    case Pushed(e) => OldEvent(c, e, throws);
  }

  /** The first item is gone, and nothing but flags has changed. */
  ghost predicate PassesOver(c: Client, d: Client)
    requires c.liveQueue != []
  {
    && d.isSubscribedToAll == c.isSubscribedToAll && d.nextRead == c.nextRead && SameDelivery(c, d)
    && d.run == c.run && d.allowProcessing == c.allowProcessing && d.liveQueue == c.liveQueue[1..]
  }

  lemma OldMarker(c: Client)
    requires c.liveQueue != []
    ensures PassesOver(c, ProcessDropMarker(Shift(c)))
  {
    hide DropSubscription;
    var reason := if c.dropData.Some? then c.dropData.value else Unknown;
    DropSide(Shift(c).(dropData := Some(reason)), reason);
  }

  lemma OldEvent(c: Client, e: Event, throws: bool)
    requires c.liveQueue != [] && !Handles(c, e)
    ensures PassesOver(c, ProcessPushed(Shift(c), e, throws))
  {
    hide Less;
  }

  lemma ServingOldTurn(w: World, d: Client, n: nat, c0: nat, p0: nat, f: nat)
    requires Serving(w, n, c0, p0, f) && n > 0
    requires w.client.liveQueue != [] && PassesOver(w.client, d)
    ensures Serving(w.(client := d), n - 1, c0, p0, f)
  {
    hide Inv, EventsIn, Less;
    assert d.liveQueue[n - 1..] == w.client.liveQueue[n..];
    InvFrame(TailWorld(w, n), Tail(d, n - 1), c0, p0, f);
    forall i | 0 <= i < n - 1 && d.liveQueue[i].Pushed? ensures !Handles(d, d.liveQueue[i].event) {
      assert w.client.liveQueue[i + 1] == d.liveQueue[i];
    }
  }

  lemma ServingTurn(w: World, i: Input, n: nat, c0: nat, p0: nat, f: nat) returns (n': nat, f': nat)
    requires Serving(w, n, c0, p0, f) && Enabled(w, ToClient(i)) && LiveTurn(w.client, ToClient(i))
    ensures Serving(Step(w, ToClient(i)), n', c0, p0, f')
  {
    hide Inv, Less, PassedOver, ProcessLiveQueue, EventsIn, DropSubscription;
    var c := w.client;
    PassedOverBound(c, n);
    n', f' := n, f;
    if n == 0 {
      assert TailWorld(w, 0) == w by { assert c.liveQueue[0..] == c.liveQueue; }
      f' := InvStep(w, ToClient(i), c0, p0, f);
      var v := Step(w, ToClient(i));
      TurnAllows(c, i);
      assert TailWorld(v, 0) == v by { assert v.client.liveQueue[0..] == v.client.liveQueue; }
      NonePassedOver(v.client);
    } else if i.LiveContinues? || i.settled {
      OldTurn(c, n, if i.LiveContinues? then i.throws else i.throwsNext);
      ServingOldTurn(w, React(c, i), n, c0, p0, f);
      n' := n - 1;
    } else {
      DropSide(c, EventHandlerException);
      InvFrame(TailWorld(w, n), Tail(React(c, i), n), c0, p0, f);
      PassedOverKept(c, React(c, i), n);
    }
  }

  lemma TurnAllows(c: Client, i: Input)
    requires c.allowProcessing && !i.Reconnected?
    ensures React(c, i).allowProcessing
  {
    hide React;
    InputFrame(c, i);
  }

  lemma NonePassedOver(c: Client)
    ensures PassedOver(c, 0)
  {
  }

  lemma {:induction false} ServingExec(w: World, actions: seq<Action>, n: nat, c0: nat, p0: nat, f: nat)
    returns (n': nat, f': nat)
    requires Serving(w, n, c0, p0, f) && CalmRun(w, actions)
    ensures Serving(Exec(w, actions), n', c0, p0, f')
    decreases |actions|
  {
    hide Serving, Step, Enabled, Calm, LiveTurn;
    n', f' := n, f;
    if actions != [] {
      n', f' := ServingStep(w, actions[0], n, c0, p0, f);
      n', f' := ServingExec(Step(w, actions[0]), actions[1..], n', c0, p0, f');
    }
  }

  lemma ServingStep(w: World, a: Action, n: nat, c0: nat, p0: nat, f: nat) returns (n': nat, f': nat)
    requires Serving(w, n, c0, p0, f) && Enabled(w, a) && Calm(w, a)
    ensures Serving(Step(w, a), n', c0, p0, f')
  {
    hide Serving, React, SliceOk, ConfirmOk;
    n', f' := n, f;
    if a.ToClient? && (a.input.LiveContinues? || a.input.LiveSettled?) {
      if LiveTurn(w.client, a) {
        n', f' := ServingTurn(w, a.input, n, c0, p0, f);
      } else {
        NoTurn(w.client, a.input);
      }
    } else {
      f' := ServingInput(w, a, n, c0, p0, f);
    }
  }

  /** `reading` says in which of the two phases the run ends. */
  lemma {:induction false} ReadingExec(w: World, actions: seq<Action>, n: nat, c0: nat, p0: nat, f: nat, b: nat)
    returns (reading: bool, n': nat, f': nat)
    requires Reading(w, n, c0, p0, f, b) && CalmRun(w, actions) && TurnsInTime(w, false, actions)
    ensures if reading then Reading(Exec(w, actions), n', c0, p0, f', b) else Serving(Exec(w, actions), n', c0, p0, f')
    decreases |actions|
  {
    hide Reading, Serving, Step, Enabled, Calm, LiveTurn;
    reading, n', f' := true, n, f;
    if actions != [] {
      var v := Step(w, actions[0]);
      f' := ReadingStep(w, actions[0], n, c0, p0, f, b);
      if v.client.listeners == 0 {
        reading, n', f' := ReadingExec(v, actions[1..], n, c0, p0, f', b);
      } else {
        n', f' := ServingExec(v, actions[1..], n, c0, p0, f');
        reading := false;
      }
    }
  }

  lemma ReadingStep(w: World, a: Action, n: nat, c0: nat, p0: nat, f: nat, b: nat) returns (f': nat)
    requires Reading(w, n, c0, p0, f, b) && Enabled(w, a) && Calm(w, a) && !LiveTurn(w.client, a)
    ensures var v := Step(w, a);
            if v.client.listeners == 0 then Reading(v, n, c0, p0, f', b) else Serving(v, n, c0, p0, f')
  {
    hide React, SliceOk, ConfirmOk, Inv, Serving, Leftover, TargetPast;
    f' := f;
    if !a.ToClient? {
      f' := ReadingServer(w, a, n, c0, p0, f, b);
    } else if a.input.LiveContinues? || a.input.LiveSettled? {
      NoTurn(w.client, a.input);
    } else {
      ReadingInput(w, a.input, n, c0, p0, f, b);
    }
  }

  lemma BeginningReads(w: World)
    requires Beginning(w)
    ensures Reading(w, |w.client.liveQueue|, |w.client.calls|, Processed(w), 0, |w.log|)
  {
    hide Less, Idx, IdxAfter;
    var n := |w.client.liveQueue|;
    var m := MaskedWorld(w, n);
    assert w.client.liveQueue[n..] == [];
    assert w.log[..|w.log|] == w.log;
    ServerOkFrame(w, m);
    StartingInv(m);
  }

  /**
   * A run, the first or one after a reconnection, is gap-free as long as the live queue takes no turn before the
   * chain of reads has gone live; what is left in the queue from the last session does no harm then. Once the client
   * listens again and everything has settled, the whole log has been handed over.
   */
  lemma RunInTimeIsGapFree(w: World, actions: seq<Action>)
    requires Beginning(w) && CalmRun(w, actions) && TurnsInTime(w, false, actions)
    ensures var v := Exec(w, actions);
            && GapFree(w, v)
            && (Settled(v) && v.client.listeners > 0 ==>
                  Processed(w) + |v.client.calls| - |w.client.calls| == |v.log|)
  {
    hide Beginning, Step, Enabled, Calm, Less, TurnsInTime, Inv, Settled;
    var c0, p0 := |w.client.calls|, Processed(w);
    BeginningReads(w);
    var reading, n, f := ReadingExec(w, actions, |w.client.liveQueue|, c0, p0, 0, |w.log|);
    ExecKeepsCalls(w, actions);
    var v := Exec(w, actions);
    if reading {
      LeftoverBound(v.client.liveQueue, n, v.log, |w.log|);
      CallsOf(MaskedWorld(v, n), c0, p0, f);
    } else {
      PassedOverBound(v.client, n);
      CallsOf(TailWorld(v, n), c0, p0, f);
      if Settled(v) {
        SettledAll(v, n, c0, p0, f);
      }
    }
  }

  lemma CallsOf(w: World, c0: nat, p0: nat, f: nat)
    requires Inv(w, c0, p0, f)
    ensures c0 <= |w.client.calls| && CallsAre(w.log, w.client.calls, c0, p0, p0 + |w.client.calls| - c0)
  {
    hide CallsAre;
  }

  lemma {:induction false} EventsOfTail(q: seq<Item>, n: nat)
    requires n <= |q| && EventsIn(q) == []
    ensures EventsIn(q[n..]) == []
  {
    if n == 0 {
      assert q[0..] == q;
    } else {
      assert q[n..] == q[1..][n - 1..];
      EventsOfTail(q[1..], n - 1);
    }
  }

  lemma SettledAll(v: World, n: nat, c0: nat, p0: nat, f: nat)
    requires Serving(v, n, c0, p0, f) && Settled(v)
    ensures p0 + |v.client.calls| - c0 == |v.log|
  {
    hide Less, EventsIn, IdxAfter, Idx, CatchingUp, PassedOver, CallsAre;
    PassedOverBound(v.client, n);
    EventsOfTail(v.client.liveQueue, n);
  }

  // ---- The first run ----

  lemma {:induction false} InTimeOnceLive(w: World, actions: seq<Action>)
    ensures TurnsInTime(w, true, actions)
    decreases |actions|
  {
    hide LiveTurn, Step;
    if actions != [] {
      InTimeOnceLive(Step(w, actions[0]), actions[1..]);
    }
  }

  ghost predicate AllowedListens(d: Client) { d.allowProcessing ==> d.listeners > 0 }

  lemma EndListens(c: Client)
    requires !c.allowProcessing
    ensures AllowedListens(EndRun(c)) && AllowedListens(FailRun(c))
  {
    hide DropSubscription;
    DropSide(c, UserInitiated);
    DropSide(c, CatchUpError);
  }

  lemma SliceListens(c: Client, throws: bool)
    requires !c.allowProcessing && c.run.InSlice?
    ensures AllowedListens(ProcessEvents(c, throws))
  {
    hide TryProcess, Handles, ReadDone, EndRun, FailRun;
    if c.run.rest == [] {
      EndListens(c.(nextRead := c.run.slice.next));
    } else {
      TryFlags(c, c.run.rest[0], throws);
      EndListens(TryProcess(c, c.run.rest[0], throws));
    }
  }

  lemma SideListens(c: Client, i: Input)
    requires !c.allowProcessing && (i.EventPushed? || i.ServerDropped? || i.StopCalled?)
    ensures !React(c, i).allowProcessing
  {
    hide EnqueueSubscriptionDropNotification;
    match i
    case EventPushed(_) => RequestGrows(c, ProcessingQueueOverflow);
    case ServerDropped(reason) => RequestGrows(c, reason);
    case StopCalled => StopGrows(c);
  }

  /** Permission to process comes with the listener. */
  lemma ReactListens(c: Client, i: Input)
    requires !c.allowProcessing && FlagsOk(c)
    ensures AllowedListens(React(c, i))
  {
    hide ProcessEvents, EndRun, FailRun, EnqueuePushedEvent, EnqueueSubscriptionDropNotification, StopRequested,
      ProcessLiveQueue, OnLiveSettled;
    EndListens(c);
    match i
    case SliceContinues(throws) => if c.run.InSlice? { SliceListens(c, throws); }
    case EventPushed(_) => SideListens(c, i);
    case ServerDropped(_) => SideListens(c, i);
    case StopCalled => SideListens(c, i);
    case _ =>
  }

  /** Before live processing is first allowed no turn is due. */
  lemma {:induction false} FirstRunIsInTime(w: World, actions: seq<Action>)
    requires Coherent(w) && !w.client.allowProcessing && CalmRun(w, actions)
    ensures TurnsInTime(w, false, actions)
    decreases |actions|
  {
    hide CursorsOk, React, Enabled, Calm, Less;
    if actions != [] {
      var v := Step(w, actions[0]);
      CoherentStep(w, actions[0]);
      if actions[0].ToClient? {
        ReactListens(w.client, actions[0].input);
      }
      if v.client.listeners > 0 {
        InTimeOnceLive(v, actions[1..]);
      } else {
        FirstRunIsInTime(v, actions[1..]);
      }
    }
  }
}
