/** What follows for callers of the catch-up subscription, and where the promise of gap-free delivery ends. */
module CatchUpResults {
  import opened Wrappers
  import opened Positions
  import opened CatchUp
  import opened CatchUpCoherence
  import opened CatchUpRuns

  // ---- Where a new subscription starts ----

  /** Event numbers count from 0 and positions from (0,0); a subscription meets only its own kind of key. */
  predicate KeyOk(isSubscribedToAll: bool, key: Key) {
    if isSubscribedToAll then key.AtPosition? && key.p.CompareTo(Position(0, 0)) >= 0
    else key.EventNumber? && key.n >= 0
  }

  predicate KeysOk(isSubscribedToAll: bool, log: seq<Event>) {
    forall j :: 0 <= j < |log| ==> KeyOk(isSubscribedToAll, log[j].key)
  }

  ghost predicate LogOk(isSubscribedToAll: bool, log: seq<Event>, floor: Key) {
    && Sorted(log) && KeysOk(isSubscribedToAll, log) && KeyOk(isSubscribedToAll, floor)
    && forall j :: 0 <= j < |log| ==> Less(log[j].key, floor)
  }

  /**
   * A subscription from nothing or from a checkpoint the log has passed starts a run, and the first event it owes the
   * caller is the first one beyond the checkpoint. A stream is read from there, $all from the checkpoint itself.
   */
  lemma NewSubscriptionStarts(isSubscribedToAll: bool, checkpoint: Option<Key>, log: seq<Event>, floor: Key)
    requires LogOk(isSubscribedToAll, log, floor)
    requires checkpoint.Some? ==> KeyOk(isSubscribedToAll, checkpoint.value) && Less(checkpoint.value, floor)
    ensures var w := World(RunSubscription(NewClient(isSubscribedToAll, checkpoint)), log, floor, None, None);
            && Starting(w)
            && Processed(w) == (if checkpoint.None? then 0 else IdxAfter(log, checkpoint.value))
            && w.client.nextRead == (if checkpoint.None? then
                                       if isSubscribedToAll then AtPosition(Position(0, 0)) else EventNumber(0)
                                     else if isSubscribedToAll then checkpoint.value
                                     else EventNumber(checkpoint.value.n + 1))
            && w.client.readBatchSize == 500 && w.client.maxPushQueueSize == 10000
  {
    hide Idx, IdxAfter;
    var w := World(RunSubscription(NewClient(isSubscribedToAll, checkpoint)), log, floor, None, None);
    var read, processed := Idx(log, w.client.nextRead), IdxAfter(log, w.client.lastProcessed);
    IdxSplits(log, w.client.nextRead);
    IdxAfterSplits(log, w.client.lastProcessed);
    assert processed < |log| ==> KeyOk(isSubscribedToAll, log[processed].key);
    assert 0 < |log| ==> KeyOk(isSubscribedToAll, log[0].key);
  }

  // ---- The stop test of the $all reader ----

  /**
   * The stop test compares the next position with (L,L) by "at or past". It has seen every event up to (L,L) exactly
   * when the next position is past (L,L) or no event sits at (L,L) itself.
   */
  lemma AllStopTestExact(log: seq<Event>, l: int, next: Key)
    requires Compare(next, AtPosition(Position(l, l))) >= 0 && next.AtPosition?
    ensures Covers(log, AtPosition(Position(l, l)), next)
            <==> (next != AtPosition(Position(l, l))
                  || forall j :: 0 <= j < |log| ==> log[j].key != AtPosition(Position(l, l)))
  {
    var till := AtPosition(Position(l, l));
    if next == till && exists j :: 0 <= j < |log| && log[j].key == till {
      var j :| 0 <= j < |log| && log[j].key == till;
      assert Compare(log[j].key, till) <= 0 && !Less(log[j].key, next);
    }
  }

  // ---- Every run ----

  /** A new subscription starts coherently, so every run of it is coherent throughout. */
  lemma NewSubscriptionCoheres(
    isSubscribedToAll: bool, checkpoint: Option<Key>, log: seq<Event>, floor: Key, actions: seq<Action>)
    requires LogOk(isSubscribedToAll, log, floor)
    requires checkpoint.Some? ==> KeyOk(isSubscribedToAll, checkpoint.value) && Less(checkpoint.value, floor)
    requires Possible(World(RunSubscription(NewClient(isSubscribedToAll, checkpoint)), log, floor, None, None), actions)
    ensures var w := World(RunSubscription(NewClient(isSubscribedToAll, checkpoint)), log, floor, None, None);
            Coherent(Exec(w, actions))
  {
    hide Idx, IdxAfter, Less, Exec, Possible, LogOk;
    var w := World(RunSubscription(NewClient(isSubscribedToAll, checkpoint)), log, floor, None, None);
    NewSubscriptionStarts(isSubscribedToAll, checkpoint, log, floor);
    CoherentExec(w, actions);
  }

  // ---- Termination of the second read ----

  /** The confirmation names the last event number of the stream, or -1 when it has none. */
  ghost predicate LastNumber(log: seq<Event>, till: Key, f: nat) {
    f <= |log| && till == if f == 0 then EventNumber(-1) else log[f - 1].key
  }

  /**
   * The confirmation covers the first `f` events: for a stream it names the last of them; for $all it lies before every
   * position still to come.
   */
  ghost predicate Covered(w: World, till: Key, f: nat) {
    if w.client.isSubscribedToAll then
      f <= |w.log| && Less(till, w.floor) && forall j :: f <= j < |w.log| ==> Less(till, w.log[j].key)
    else LastNumber(w.log, till, f)
  }

  /** A $all read whose next position is short of the target has events up to there still in front of it. */
  ghost predicate ReachesTarget(w: World, s: Slice) {
    w.client.run.AwaitSlice? && w.client.run.till.Some? && Less(s.next, w.client.run.till.value) ==>
      exists j :: Idx(w.log, s.next) <= j < |w.log| && Compare(w.log[j].key, w.client.run.till.value) <= 0
  }

  /**
   * A read at or below the head brings at least one event; event numbers are never negative, and $all reads get
   * there.
   */
  ghost predicate Progressing(w: World, a: Action) {
    match a
    case ToClient(ReadArrived(SliceRead(s))) =>
      && (s.events == [] ==> Read(w) == |w.log|)
      && (if w.client.isSubscribedToAll then ReachesTarget(w, s) else s.next.EventNumber? && s.next.n >= 0)
    case _ => true
  }

  ghost predicate ProgressingRun(w: World, actions: seq<Action>)
    decreases |actions|
  {
    actions == [] || (Progressing(w, actions[0]) && ProgressingRun(Step(w, actions[0]), actions[1..]))
  }

  predicate IsSlice(a: Action) { a.ToClient? && a.input.ReadArrived? && a.input.result.SliceRead? }

  /** How many slices arrive along a run. */
  function SlicesRead(actions: seq<Action>): nat {
    if actions == [] then 0 else (if IsSlice(actions[0]) then 1 else 0) + SlicesRead(actions[1..])
  }

  /** An upper bound on the slices still to come in the second read, when the target is the event before `f`. */
  function SlicesLeft(w: World, f: nat): nat {
    match w.client.run
    case AwaitSlice(_) => Missing(w, w.client.nextRead, f) + 1
    case Subscribing => Missing(w, w.client.nextRead, f) + 1
    case InSlice(_, s, till) => AfterSlice(w, s, till, f)
    case AwaitHandler(_, s, till) => AfterSlice(w, s, till, f)
    case Idle => 0
  }

  function Missing(w: World, next: Key, f: nat): nat { if Idx(w.log, next) < f then f - Idx(w.log, next) else 0 }

  function AfterSlice(w: World, s: Slice, till: Option<Key>, f: nat): nat {
    if ReadDone(w.client.isSubscribedToAll, s, till) then 0 else Missing(w, s.next, f) + 1
  }

  /** A read under way has this target. */
  predicate Toward(run: Run, till: Key) {
    match run
    case AwaitSlice(t) => t == Some(till)
    case InSlice(_, _, t) => t == Some(till)
    case AwaitHandler(_, _, t) => t == Some(till)
    case _ => true
  }

  /** From the confirmation on: on its way, taken in as the target of the second read, or done with. */
  ghost predicate SecondRead(w: World, till: Key, f: nat) {
    && Covered(w, till, f)
    && Toward(w.client.run, till) && (w.client.run.Subscribing? ==> w.confirm == Some(till))
  }

  /** A slice that does not finish the read moves the cursor, and stays in front of the target. */
  lemma SliceAdvances(w: World, s: Slice, till: Key, f: nat)
    requires ServerOk(w) && Covered(w, till, f) && SliceOk(w, s, Some(till))
    requires w.client.run == AwaitSlice(Some(till)) && !ReadDone(w.client.isSubscribedToAll, s, Some(till))
    requires Progressing(w, ToClient(ReadArrived(SliceRead(s))))
    ensures Read(w) < Idx(w.log, s.next) < f
  {
    hide Idx;
    IdxSplits(w.log, s.next);
    if w.client.isSubscribedToAll {
      var j :| Idx(w.log, s.next) <= j < |w.log| && Compare(w.log[j].key, till) <= 0;
    }
  }

  /** No step before the next reconnection takes the second read further from its end; a slice brings it closer. */
  lemma SecondReadStep(w: World, a: Action, till: Key, f: nat)
    requires Coherent(w) && SecondRead(w, till, f) && Enabled(w, a) && Progressing(w, a) && a != ToClient(Reconnected)
    ensures var v := Step(w, a);
            SecondRead(v, till, f) && (if IsSlice(a) then 1 else 0) + SlicesLeft(v, f) <= SlicesLeft(w, f)
  {
    hide Idx, IdxAfter, SliceTail, ServerOk, Less, Compare, Sorted, React, SliceOk, QueueInLog, FlagsOk, ConfirmOk;
    match a
    case Append(e, floor) => SecondReadAppend(w, e, floor, till, f);
    case Confirm(_) =>
    case ConnectionLost =>
    case ToClient(ReadArrived(SliceRead(s))) =>
      ReadArrivedRun(w.client, s);
      if !ReadDone(w.client.isSubscribedToAll, s, Some(till)) {
        SliceAdvances(w, s, till, f);
      }
    case ToClient(i) => SecondReadInput(w, i, till, f);
  }

  lemma ReadArrivedRun(c: Client, s: Slice)
    requires c.run.AwaitSlice?
    ensures React(c, ReadArrived(SliceRead(s))) == c.(run := InSlice(s.events, s, c.run.till))
  {
  }

  lemma CoveredAppend(w: World, e: Event, floor: Key, till: Key, f: nat)
    requires Covered(w, till, f) && Enabled(w, Append(e, floor))
    ensures Covered(Step(w, Append(e, floor)), till, f)
  {
    var log := w.log + [e];
    if w.client.isSubscribedToAll {
      forall j | f <= j < |log| ensures Less(till, log[j].key) {
        if j < |w.log| { assert Less(till, w.log[j].key); }
      }
    }
  }

  lemma SecondReadAppend(w: World, e: Event, floor: Key, till: Key, f: nat)
    requires Coherent(w) && SecondRead(w, till, f) && Enabled(w, Append(e, floor))
    ensures var v := Step(w, Append(e, floor)); SecondRead(v, till, f) && SlicesLeft(v, f) == SlicesLeft(w, f)
  {
    hide Idx, IdxAfter, Less, Compare, QueueInLog, Covered;
    CoveredAppend(w, e, floor, till, f);
    NextBelowFloor(w);
    BelowFloor(w, w.client.nextRead, e);
    AppendKeepsIndices(w.log, e, w.client.nextRead, w.client.lastProcessed);
    if w.client.run.InSlice? || w.client.run.AwaitHandler? {
      BelowFloor(w, w.client.run.slice.next, e);
      AppendKeepsIndices(w.log, e, w.client.run.slice.next, w.client.lastProcessed);
    }
  }

  lemma SecondReadInput(w: World, i: Input, till: Key, f: nat)
    requires SecondRead(w, till, f) && Enabled(w, ToClient(i)) && !i.Reconnected?
    requires !(i.ReadArrived? && i.result.SliceRead?)
    ensures var v := Step(w, ToClient(i)); SecondRead(v, till, f) && SlicesLeft(v, f) <= SlicesLeft(w, f)
  {
    hide Idx, Less, Compare, Handles, React;
    var c := w.client;
    if Sideways(i) {
      SidewaysKeepsRun(c, i);
    } else if i.SubscribeConfirmed? {
      ConfirmedRun(c, i.till);
    } else {
      ChainInput(c, i, till);
      if c.run.InSlice? {
        SliceInput(c, i, till);
      }
    }
  }

  lemma ConfirmedRun(c: Client, till: Key)
    requires c.run.Subscribing?
    ensures var d := React(c, SubscribeConfirmed(till));
            d.run == AwaitSlice(Some(till)) && d.nextRead == c.nextRead && d.isSubscribedToAll == c.isSubscribedToAll
  {
  }

  /** Where the chain can go from the second read: on with the same target, or to its end. */
  lemma ChainInput(c: Client, i: Input, till: Key)
    requires !Sideways(i) && !i.Reconnected? && !(i.ReadArrived? && i.result.SliceRead?) && !i.SubscribeConfirmed?
    requires Toward(c.run, till)
    ensures var d := React(c, i);
            && d.isSubscribedToAll == c.isSubscribedToAll
            && (!c.run.InSlice? ==>
                  d.nextRead == c.nextRead
                  && (d.run == c.run || d.run.Idle?
                      || (c.run.AwaitHandler? && d.run == InSlice(c.run.rest, c.run.slice, c.run.till))))
  {
    hide Less, Compare, TryProcess, ProcessEvents, DropSubscription, EndRun;
  }

  /** The slice is worked off: on to the next one, unless it was the last. */
  lemma SliceEnds(c: Client)
    requires c.run.InSlice? && c.run.till.Some?
    ensures var d := SliceFinished(c);
            || d.run.Idle?
            || (d.run == AwaitSlice(c.run.till) && d.nextRead == c.run.slice.next
                && !ReadDone(c.isSubscribedToAll, c.run.slice, c.run.till))
  {
    hide EndRun, ReadDone;
  }

  lemma NextInSlice(c: Client, throws: bool)
    requires c.run.InSlice? && c.run.rest != []
    ensures var d := ProcessNext(c, throws);
            d.run.Idle? || ((d.run.InSlice? || d.run.AwaitHandler?) && d.run.slice == c.run.slice
                && d.run.till == c.run.till)
  {
    hide TryProcess, Handles, FailRun;
  }

  lemma SliceInput(c: Client, i: Input, till: Key)
    requires !Sideways(i) && !i.Reconnected? && c.run.InSlice? && c.run.till == Some(till)
    ensures var d := React(c, i);
            || d.run.Idle?
            || (d.run == AwaitSlice(Some(till)) && d.nextRead == c.run.slice.next
                && !ReadDone(c.isSubscribedToAll, c.run.slice, Some(till)))
            || ((d.run.InSlice? || d.run.AwaitHandler?) && d.run.slice == c.run.slice && d.run.till == c.run.till)
  {
    hide ReadDone, SliceFinished, ProcessNext;
    if i.SliceContinues? {
      if c.run.rest == [] {
        SliceEnds(c);
      } else {
        NextInSlice(c, i.throws);
      }
    }
  }

  lemma {:induction false} SecondReadBounded(w: World, actions: seq<Action>, till: Key, f: nat)
    requires Coherent(w) && SecondRead(w, till, f) && Possible(w, actions) && ProgressingRun(w, actions)
    requires ToClient(Reconnected) !in actions
    ensures SlicesRead(actions) <= SlicesLeft(w, f)
    decreases |actions|
  {
    hide Coherent, SecondRead, SlicesLeft, Step, Enabled, Progressing;
    if actions != [] {
      SecondReadStep(w, actions[0], till, f);
      CoherentStep(w, actions[0]);
      SecondReadBounded(Step(w, actions[0]), actions[1..], till, f);
    }
  }

  /**
   * The second read ends, of a stream and of $all, in the first run and after any number of reconnections, with
   * whatever overflow, drops, stops, live turns and appends around it and for every batch size. From the confirmation
   * of the last event until the next reconnection it takes at most as many slices as events are missing up to that
   * event, and one more.
   */
  lemma SecondReadEnds(w: World, before: seq<Action>, till: Key, after: seq<Action>)
    requires Coherent(w) && Possible(w, before)
    requires var v := Exec(w, before);
             && Enabled(v, Confirm(till)) && Covered(v, till, |v.log|)
             && Possible(Step(v, Confirm(till)), after) && ProgressingRun(Step(v, Confirm(till)), after)
    requires ToClient(Reconnected) !in after
    ensures var v := Exec(w, before); SlicesRead(after) <= |v.log| - Read(v) + 1
  {
    hide Exec, Possible, ProgressingRun, SlicesRead, Idx, CursorsOk, FlagsOk, ConfirmOk;
    var v := Exec(w, before);
    CoherentExec(w, before);
    CoherentStep(v, Confirm(till));
    SecondReadBounded(Step(v, Confirm(till)), after, till, |v.log|);
  }

  // ---- Queue bound and drop callback ----

  function Markers(q: seq<Item>): nat {
    if q == [] then 0 else (if q[0].DropMarker? then 1 else 0) + Markers(q[1..])
  }

  lemma {:induction false} MarkersSnoc(q: seq<Item>, x: Item)
    ensures Markers(q + [x]) == Markers(q) + (if x.DropMarker? then 1 else 0)
    ensures Markers(q) + |EventsIn(q)| == |q|
  {
    if q == [] {
      assert q + [x] == [x];
      assert [x][1..] == [];
    } else {
      assert (q + [x])[1..] == q[1..] + [x];
      MarkersSnoc(q[1..], x);
    }
  }

  /**
   * With `runs` runs begun: no more events queued than allowed, and no more than one drop marker and one drop callback
   * for each run.
   */
  ghost predicate Limited(c: Client, runs: nat) {
    && QueueLimited(c.liveQueue, c.dropData, c.maxPushQueueSize, runs)
    && |c.drops| + 1 <= runs + Flag(c.isDropped)
  }

  /** The part of `Limited` that is about the queue. */
  ghost predicate QueueLimited(queue: seq<Item>, dropData: Option<Reason>, max: nat, runs: nat) {
    Markers(queue) + 1 <= runs + Flag(dropData.Some?) && |EventsIn(queue)| <= max
  }

  lemma LimitedDropRequest(c: Client, reason: Reason, runs: nat)
    requires QueueLimited(c.liveQueue, c.dropData, c.maxPushQueueSize, runs)
    ensures var d := EnqueueSubscriptionDropNotification(c, reason);
            QueueLimited(d.liveQueue, d.dropData, c.maxPushQueueSize, runs)
  {
    EventsInSnoc(c.liveQueue, DropMarker);
    MarkersSnoc(c.liveQueue, DropMarker);
  }

  lemma LimitedPush(c: Client, e: Event, runs: nat)
    requires QueueLimited(c.liveQueue, c.dropData, c.maxPushQueueSize, runs)
    ensures var d := EnqueuePushedEvent(c, e); QueueLimited(d.liveQueue, d.dropData, c.maxPushQueueSize, runs)
  {
    hide EnqueueSubscriptionDropNotification;
    if |c.liveQueue| >= c.maxPushQueueSize {
      LimitedDropRequest(c, ProcessingQueueOverflow, runs);
    } else {
      EventsInSnoc(c.liveQueue, Pushed(e));
      MarkersSnoc(c.liveQueue, Pushed(e));
    }
  }

  lemma LimitedLive(c: Client, throws: bool, runs: nat)
    requires QueueLimited(c.liveQueue, c.dropData, c.maxPushQueueSize, runs)
    ensures var d := ProcessLiveQueue(c, throws); QueueLimited(d.liveQueue, d.dropData, c.maxPushQueueSize, runs)
  {
    hide ProcessPushed, ProcessDropMarker, StopLive, EventsIn, Markers;
    if c.liveQueue != [] {
      LimitedShift(c.liveQueue, c.dropData, c.maxPushQueueSize, runs);
    }
  }

  lemma LimitedShift(queue: seq<Item>, dropData: Option<Reason>, max: nat, runs: nat)
    requires QueueLimited(queue, dropData, max, runs) && queue != []
    ensures QueueLimited(queue[1..], dropData, max, runs)
    ensures queue[0].DropMarker? ==> Markers(queue[1..]) + 1 <= runs
  {
  }

  lemma LimitedStep(c: Client, i: Input, runs: nat)
    requires Limited(c, runs)
    ensures Limited(React(c, i), if i.Reconnected? then runs + 1 else runs)
  {
    hide Markers, EventsIn, OnReadResult, ProcessEvents, OnHandlerSettled, OnSubscribed, FailRun, EnqueuePushedEvent,
      EnqueueSubscriptionDropNotification, ProcessLiveQueue, DropSubscription;
    if !i.Reconnected? {
      InputFrame(c, i);
    }
    match i
    case EventPushed(e) => LimitedPush(c, e, runs);
    case ServerDropped(r) => LimitedDropRequest(c, r, runs);
    case StopCalled =>
      LimitedDropRequest(
        c.(listeners := if c.listeners > 0 then c.listeners - 1 else 0, shouldStop := true), UserInitiated, runs);
    case LiveContinues(t) => LimitedLive(c, t, runs);
    case LiveSettled(_, t) => LimitedLive(c, t, runs);
    case _ =>
  }

  function RunsBegun(inputs: seq<Input>): nat {
    if inputs == [] then 0 else (if inputs[0].Reconnected? then 1 else 0) + RunsBegun(inputs[1..])
  }

  /**
   * Whatever the server and the handler do, and across reconnections: the live queue never holds more events than
   * allowed, and there are at most one drop marker and one drop callback for each run that has begun.
   */
  lemma {:induction false} RunIsLimited(c: Client, inputs: seq<Input>, runs: nat)
    requires Limited(c, runs)
    ensures var (d, n) := (ReactAll(c, inputs), runs + RunsBegun(inputs));
            Limited(d, n) && |d.liveQueue| <= d.maxPushQueueSize + n && |d.drops| <= n
    decreases |inputs|
  {
    hide React, Markers, EventsIn;
    if inputs == [] {
      MarkersSnoc(c.liveQueue, DropMarker);
    } else {
      LimitedStep(c, inputs[0], runs);
      RunIsLimited(React(c, inputs[0]), inputs[1..], if inputs[0].Reconnected? then runs + 1 else runs);
    }
  }

  lemma NewIsLimited(isSubscribedToAll: bool, checkpoint: Option<Key>)
    ensures Limited(RunSubscription(NewClient(isSubscribedToAll, checkpoint)), 1)
  {
  }

  // ---- Giving up the server subscription ----

  /** From `c` to `d` the server subscription was told to end for an overflow and for a drop, each if there was one. */
  ghost predicate GivesUp(c: Client, d: Client, overflow: bool) {
    d.unsubscribes == c.unsubscribes + Flag(overflow) + Flag(c.subscribed && |d.drops| > |c.drops|)
  }

  ghost predicate GivesUpOnDrop(c: Client, d: Client) { GivesUp(c, d, false) }

  lemma DropGivesUp(c: Client, reason: Reason)
    ensures GivesUpOnDrop(c, DropSubscription(c, reason))
  {
  }

  lemma EndGivesUp(c: Client)
    ensures GivesUpOnDrop(c, EndRun(c)) && GivesUpOnDrop(c, FailRun(c))
  {
    hide DropSubscription;
    DropGivesUp(c, UserInitiated);
    DropGivesUp(c, CatchUpError);
  }

  lemma TryGivesUp(c: Client, e: Event, throws: bool)
    ensures var d := TryProcess(c, e, throws);
            d.unsubscribes == c.unsubscribes && d.drops == c.drops && d.subscribed == c.subscribed
  {
    hide Less;
  }

  lemma NextGivesUp(c: Client, throws: bool)
    requires c.run.InSlice? && c.run.rest != []
    ensures GivesUpOnDrop(c, ProcessNext(c, throws))
  {
    hide TryProcess, Handles, FailRun;
    TryGivesUp(c, c.run.rest[0], throws);
    EndGivesUp(TryProcess(c, c.run.rest[0], throws));
  }

  lemma SliceGivesUp(c: Client, throws: bool)
    requires c.run.InSlice?
    ensures GivesUpOnDrop(c, ProcessEvents(c, throws))
  {
    hide ProcessNext, ReadDone, EndRun;
    if c.run.rest == [] {
      EndGivesUp(c.(nextRead := c.run.slice.next));
    } else {
      NextGivesUp(c, throws);
    }
  }

  lemma MarkerGivesUp(c: Client)
    ensures GivesUpOnDrop(c, ProcessDropMarker(c))
  {
    hide DropSubscription;
    var reason := if c.dropData.Some? then c.dropData.value else Unknown;
    DropGivesUp(c.(dropData := Some(reason)), reason);
  }

  lemma PushedGivesUp(c: Client, e: Event, throws: bool)
    ensures GivesUpOnDrop(c, ProcessPushed(c, e, throws))
  {
    hide TryProcess, Handles, DropSubscription;
    TryGivesUp(c, e, throws);
    DropGivesUp(TryProcess(c, e, throws), EventHandlerException);
  }

  lemma LiveGivesUp(c: Client, throws: bool)
    ensures GivesUpOnDrop(c, ProcessLiveQueue(c, throws))
  {
    hide ProcessDropMarker, ProcessPushed, Frame, QueueKept, SameDelivery;
    if c.liveQueue != [] {
      match c.liveQueue[0]
      case DropMarker => MarkerGivesUp(Shift(c));
      case Pushed(e) => PushedGivesUp(Shift(c), e, throws);
    }
  }

  lemma RequestGivesUp(c: Client, reason: Reason)
    ensures var d := EnqueueSubscriptionDropNotification(c, reason);
            GivesUpOnDrop(c, d) && d.unsubscribes == c.unsubscribes && d.drops == c.drops
  {
  }

  lemma PushGivesUp(c: Client, e: Event)
    ensures GivesUp(c, EnqueuePushedEvent(c, e), |c.liveQueue| >= c.maxPushQueueSize)
  {
    hide EnqueueSubscriptionDropNotification;
    RequestGivesUp(c, ProcessingQueueOverflow);
  }

  lemma StopGivesUp(c: Client)
    ensures GivesUpOnDrop(c, StopRequested(c))
  {
    hide EnqueueSubscriptionDropNotification;
    RequestGivesUp(c.(listeners := if c.listeners > 0 then c.listeners - 1 else 0, shouldStop := true), UserInitiated);
  }

  lemma SettledGivesUp(c: Client, fulfilled: bool, throws: bool)
    ensures GivesUpOnDrop(c, OnLiveSettled(c, fulfilled, throws))
  {
    hide ProcessLiveQueue, DropSubscription;
    LiveGivesUp(c, throws);
    DropGivesUp(c, EventHandlerException);
  }

  lemma ReadGivesUp(c: Client, r: ReadResult)
    requires c.run.AwaitSlice?
    ensures GivesUpOnDrop(c, OnReadResult(c, r))
  {
    hide FailRun, EndRun;
    EndGivesUp(c);
  }

  lemma ChainGivesUp(c: Client, i: Input)
    requires i.HandlerSettled? || i.SubscribeConfirmed? || i.SubscribeFailed? || i.Reconnected?
    ensures GivesUpOnDrop(c, React(c, i))
  {
    hide FailRun, Frame, QueueKept, SameDelivery;
    EndGivesUp(c);
  }

  lemma NothingGivenUp(c: Client)
    ensures GivesUpOnDrop(c, c)
  {
  }

  /** The server subscription is told to end by every push that meets a full queue and by every drop that has one. */
  lemma UnsubscribesExact(c: Client, i: Input)
    ensures GivesUp(c, React(c, i), i.EventPushed? && |c.liveQueue| >= c.maxPushQueueSize)
  {
    hide OnReadResult, ProcessEvents, OnHandlerSettled, OnSubscribed, FailRun, RunSubscription, EnqueuePushedEvent,
      EnqueueSubscriptionDropNotification, StopRequested, ProcessLiveQueue, OnLiveSettled, GivesUp;
    NothingGivenUp(c);
    match i
    case ReadArrived(r) => if c.run.AwaitSlice? { ReadGivesUp(c, r); }
    case SliceContinues(throws) => if c.run.InSlice? { SliceGivesUp(c, throws); }
    case EventPushed(e) => PushGivesUp(c, e);
    case ServerDropped(reason) => RequestGivesUp(c, reason);
    case StopCalled => StopGivesUp(c);
    case LiveContinues(throws) => LiveGivesUp(c, throws);
    case LiveSettled(ok, throws) => SettledGivesUp(c, ok, throws);
    case _ => ChainGivesUp(c, i);
  }
}
