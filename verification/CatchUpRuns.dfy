/** The catch-up subscription against a server whose log grows while the client reads it. */
module CatchUpRuns {
  import opened Wrappers
  import opened CatchUp

  /**
   * `floor` bounds the keys of the log from above and the keys still to come from below. `push` is the index of the
   * next event the server pushes to the current subscription; `confirm` is a confirmation on its way to the client.
   */
  datatype World = World(client: Client, log: seq<Event>, floor: Key, push: Option<nat>, confirm: Option<Key>)

  datatype Action =
    | Append(event: Event, floor: Key)
    | Confirm(till: Key)
    | ConnectionLost
    | ToClient(input: Input)

  /** The index of the first event that is not before the key. */
  function Idx(log: seq<Event>, key: Key): (i: nat)
    ensures i <= |log|
  {
    if log == [] then 0
    else if Less(log[|log| - 1].key, key) then |log|
    else Idx(log[..|log| - 1], key)
  }

  /** The index of the first event that is after the key. */
  function IdxAfter(log: seq<Event>, key: Key): (i: nat)
    ensures i <= |log|
  {
    if log == [] then 0
    else if !Less(key, log[|log| - 1].key) then |log|
    else IdxAfter(log[..|log| - 1], key)
  }

  ghost predicate Sorted(log: seq<Event>) {
    forall i, j :: 0 <= i < j < |log| ==> Less(log[i].key, log[j].key)
  }

  /** The keys up to `till` are exactly those before `next`, so a read stopped by this target has seen them all. */
  ghost predicate Covers(log: seq<Event>, till: Key, next: Key) {
    forall j :: 0 <= j < |log| && Compare(log[j].key, till) <= 0 ==> Less(log[j].key, next)
  }

  /**
   * A forward read from the cursor: a run of consecutive events, at most a batch, and a next cursor right behind
   * them. For $all the next position reaches (L,L) only once everything at or below (L,L) has been returned; for a
   * stream the strict test makes that true by itself.
   */
  ghost predicate SliceOk(w: World, s: Slice, till: Option<Key>) {
    var i := Idx(w.log, w.client.nextRead);
    && i + |s.events| <= |w.log| && |s.events| <= w.client.readBatchSize
    && s.events == w.log[i..i + |s.events|]
    && Idx(w.log, s.next) == i + |s.events|
    && !Less(w.floor, s.next)
    && (w.client.isSubscribedToAll && till.Some? && Compare(s.next, till.value) >= 0
       ==> Covers(w.log, till.value, s.next))
  }

  /** No event of the log lies beyond the point the server confirms. */
  ghost predicate ConfirmOk(log: seq<Event>, till: Key) {
    forall j :: 0 <= j < |log| ==> Compare(log[j].key, till) <= 0
  }

  ghost predicate Enabled(w: World, a: Action) {
    match a
    case Append(e, floor) => !Less(e.key, w.floor) && Less(e.key, floor)
    case Confirm(till) => w.client.run.Subscribing? && w.confirm.None? && w.push.None? && ConfirmOk(w.log, till)
    case ConnectionLost => w.push.Some?
    case ToClient(ReadArrived(SliceRead(s))) => w.client.run.AwaitSlice? && SliceOk(w, s, w.client.run.till)
    case ToClient(ReadArrived(StreamNotFound)) =>
      w.client.run.AwaitSlice? && !w.client.isSubscribedToAll && w.log == []
    case ToClient(EventPushed(e)) => w.push.Some? && w.push.value < |w.log| && e == w.log[w.push.value]
    case ToClient(SubscribeConfirmed(till)) => w.client.run.Subscribing? && w.confirm == Some(till)
    case ToClient(SubscribeFailed) => w.confirm.None?
    case ToClient(Reconnected) => w.push.None?
    case ToClient(_) => true
  }

  function Step(w: World, a: Action): World {
    match a
    case Append(e, floor) => w.(log := w.log + [e], floor := floor)
    case Confirm(till) => w.(push := Some(|w.log|), confirm := Some(till))
    case ConnectionLost => w.(push := None)
    case ToClient(EventPushed(e)) =>
      w.(client := React(w.client, a.input), push := if w.push.Some? then Some(w.push.value + 1) else None)
    case ToClient(SubscribeConfirmed(_)) => w.(client := React(w.client, a.input), confirm := None)
    case ToClient(i) => w.(client := React(w.client, i))
  }

  ghost predicate Possible(w: World, actions: seq<Action>)
    decreases |actions|
  {
    actions == [] || (Enabled(w, actions[0]) && Possible(Step(w, actions[0]), actions[1..]))
  }

  function Exec(w: World, actions: seq<Action>): World
    decreases |actions|
  {
    if actions == [] then w else Exec(Step(w, actions[0]), actions[1..])
  }

  /** No reconnection, and no push meets a full queue. */
  predicate Calm(w: World, a: Action) {
    match a
    case ToClient(Reconnected) => false
    case ToClient(EventPushed(_)) => |w.client.liveQueue| < w.client.maxPushQueueSize
    case _ => true
  }

  ghost predicate CalmRun(w: World, actions: seq<Action>)
    decreases |actions|
  {
    actions == []
    || (Enabled(w, actions[0]) && Calm(w, actions[0]) && CalmRun(Step(w, actions[0]), actions[1..]))
  }

  // ---- Facts about indices ----

  lemma {:induction false} IdxSplits(log: seq<Event>, key: Key)
    requires Sorted(log)
    ensures forall j :: 0 <= j < Idx(log, key) ==> Less(log[j].key, key)
    ensures forall j :: Idx(log, key) <= j < |log| ==> !Less(log[j].key, key)
  {
    if log != [] {
      var n := |log| - 1;
      IdxSplits(log[..n], key);
      if Less(log[n].key, key) {
        forall j | 0 <= j < n ensures Less(log[j].key, key) {
          assert Less(log[j].key, log[n].key);
        }
      }
    }
  }

  lemma {:induction false} IdxAfterSplits(log: seq<Event>, key: Key)
    requires Sorted(log)
    ensures forall j :: 0 <= j < IdxAfter(log, key) ==> !Less(key, log[j].key)
    ensures forall j :: IdxAfter(log, key) <= j < |log| ==> Less(key, log[j].key)
  {
    if log != [] {
      var n := |log| - 1;
      IdxAfterSplits(log[..n], key);
      if !Less(key, log[n].key) {
        forall j | 0 <= j < n ensures !Less(key, log[j].key) {
          assert Less(log[j].key, log[n].key);
        }
      }
    }
  }

  /** Past the event at `i` there are `i + 1` events. */
  lemma IdxAfterAt(log: seq<Event>, i: nat)
    requires Sorted(log) && i < |log|
    ensures IdxAfter(log, log[i].key) == i + 1
  {
    IdxAfterSplits(log, log[i].key);
  }

  lemma AppendKeepsIndices(log: seq<Event>, e: Event, next: Key, last: Key)
    requires !Less(e.key, next) && Less(last, e.key)
    ensures Idx(log + [e], next) == Idx(log, next)
    ensures IdxAfter(log + [e], last) == IdxAfter(log, last)
  {
    assert (log + [e])[..|log|] == log;
  }

  /** The pushed events of the queue, without the markers. */
  function EventsIn(q: seq<Item>): seq<Event> {
    if q == [] then []
    else if q[0].Pushed? then [q[0].event] + EventsIn(q[1..])
    else EventsIn(q[1..])
  }

  lemma {:induction false} EventsInSnoc(q: seq<Item>, x: Item)
    ensures EventsIn(q + [x]) == EventsIn(q) + (if x.Pushed? then [x.event] else [])
    ensures |EventsIn(q)| <= |q|
  {
    if q == [] {
      assert q + [x] == [x];
      assert [x][1..] == [];
    } else {
      assert (q + [x])[1..] == q[1..] + [x];
      EventsInSnoc(q[1..], x);
    }
  }

  // ---- The joint invariant of the two cursors and the live queue ----

  /** How many events lie at or before the last processed one, and where the read cursor stands. */
  function Processed(w: World): nat { IdxAfter(w.log, w.client.lastProcessed) }

  function Read(w: World): nat { Idx(w.log, w.client.nextRead) }

  ghost predicate ServerOk(w: World) {
    && Sorted(w.log)
    && (forall j :: 0 <= j < |w.log| ==> Less(w.log[j].key, w.floor))
    && !Less(w.floor, w.client.nextRead) && Less(w.client.lastProcessed, w.floor)
  }

  /** The calls made after the first `c0` are for the events from index `p0` up to `q`, one call each. */
  ghost predicate CallsAre(log: seq<Event>, calls: seq<Call>, c0: nat, p0: nat, q: nat) {
    && c0 <= |calls| && q == p0 + |calls| - c0 && q <= |log|
    && (forall i :: c0 <= i < |calls| ==> calls[i].event == log[p0 + i - c0])
  }

  /** The queue holds the events from `f` on, up to the next one the server will push. */
  ghost predicate QueueFrom(log: seq<Event>, queue: seq<Event>, push: Option<nat>, f: nat) {
    && f + |queue| <= |log| && queue == log[f..f + |queue|]
    && (push.Some? ==> push.value == f + |queue|)
  }

  ghost predicate NoSession(w: World) { w.push.None? && w.confirm.None? && EventsIn(w.client.liveQueue) == [] }

  ghost predicate UpTo(log: seq<Event>, till: Key, f: nat) {
    f <= |log| && forall j :: 0 <= j < f ==> Compare(log[j].key, till) <= 0
  }

  ghost predicate TargetOk(w: World, till: Option<Key>, f: nat) {
    if till.None? then NoSession(w) else UpTo(w.log, till.value, f)
  }

  /** The rest of a slice ends at its next cursor and starts no later than the first unprocessed event. */
  ghost predicate SliceTail(w: World, rest: seq<Event>, s: Slice, till: Option<Key>, f: nat) {
    var k := Idx(w.log, s.next);
    && |rest| <= k && rest == w.log[k - |rest|..k] && k - |rest| <= Processed(w)
    && !Less(w.floor, s.next)
    && (till.Some? && ReadDone(w.client.isSubscribedToAll, s, till) ==>
          f <= |w.log| && forall j :: 0 <= j < f ==> Less(w.log[j].key, s.next))
  }

  ghost predicate CatchingUp(w: World, f: nat) {
    match w.client.run
    case Idle => true
    case AwaitSlice(till) => Read(w) <= Processed(w) && TargetOk(w, till, f)
    case InSlice(rest, s, till) => SliceTail(w, rest, s, till, f) && TargetOk(w, till, f)
    case AwaitHandler(rest, s, till) => SliceTail(w, rest, s, till, f) && TargetOk(w, till, f)
    case Subscribing => Read(w) <= Processed(w) && TargetOk(w, w.confirm, f)
  }

  /** Where a run stands that started with `c0` calls made and `p0` events processed. */
  ghost predicate Inv(w: World, c0: nat, p0: nat, f: nat) {
    var c := w.client;
    && ServerOk(w)
    && c0 <= |c.calls|
    && var q := p0 + |c.calls| - c0;
    && CallsAre(w.log, c.calls, c0, p0, q)
    && Processed(w) <= q
    && QueueFrom(w.log, EventsIn(c.liveQueue), w.push, f)
    && (if c.allowProcessing then
          c.run.Idle? && ((f < Processed(w) && Processed(w) == q) || f == q)
        else
          c.live.Off? && (!c.run.Idle? ==> Processed(w) == q) && CatchingUp(w, f))
  }

  /** A run is starting: nothing queued, nothing being processed, live processing not yet allowed. */
  ghost predicate Starting(w: World) {
    && ServerOk(w) && NoSession(w) && Read(w) <= Processed(w)
    && w.client.run == AwaitSlice(None) && w.client.live.Off? && !w.client.allowProcessing
  }

  lemma StartingInv(w: World)
    requires Starting(w)
    ensures Inv(w, |w.client.calls|, Processed(w), 0)
  {
  }

  // ---- Every step keeps the invariant ----

  lemma ServerOkAppend(w: World, e: Event, floor: Key)
    requires ServerOk(w) && Enabled(w, Append(e, floor))
    ensures ServerOk(Step(w, Append(e, floor)))
  {
    var log := w.log + [e];
    forall j | 0 <= j < |log| ensures Less(log[j].key, floor) {
      if j < |w.log| { assert Less(w.log[j].key, w.floor); }
    }
    forall i, j | 0 <= i < j < |log| ensures Less(log[i].key, log[j].key) {
      if j == |w.log| { assert Less(w.log[i].key, w.floor); }
    }
  }

  lemma SliceTailAppend(w: World, e: Event, floor: Key, rest: seq<Event>, s: Slice, till: Option<Key>, f: nat)
    requires ServerOk(w) && Enabled(w, Append(e, floor)) && SliceTail(w, rest, s, till, f)
    ensures SliceTail(Step(w, Append(e, floor)), rest, s, till, f)
  {
    hide Less, Compare, Idx, IdxAfter, ConfirmOk, SliceOk, EventsIn, CallsAre;
    BelowFloor(w, s.next, e);
    BelowFloor(w, w.client.nextRead, e);
    AppendKeepsIndices(w.log, e, s.next, w.client.lastProcessed);
    var k := Idx(w.log, s.next);
    assert (w.log + [e])[k - |rest|..k] == w.log[k - |rest|..k];
    FloorGrows(w, s.next, e, floor);
  }

  lemma BelowFloor(w: World, next: Key, e: Event)
    requires ServerOk(w) && !Less(e.key, w.floor) && !Less(w.floor, next)
    ensures !Less(e.key, next) && Less(w.client.lastProcessed, e.key)
  {
  }

  lemma FloorGrows(w: World, next: Key, e: Event, floor: Key)
    requires !Less(e.key, w.floor) && Less(e.key, floor) && !Less(w.floor, next)
    ensures !Less(floor, next)
  {
  }

  lemma CatchingUpAppend(w: World, e: Event, floor: Key, f: nat)
    requires ServerOk(w) && Enabled(w, Append(e, floor)) && CatchingUp(w, f)
    ensures CatchingUp(Step(w, Append(e, floor)), f)
  {
    hide SliceTail, ServerOk, Less, Compare, EventsIn;
    var w' := Step(w, Append(e, floor));
    assert ServerOk(w) ==> !Less(w.floor, w.client.nextRead) by { NextBelowFloor(w); }
    BelowFloor(w, w.client.nextRead, e);
    AppendKeepsIndices(w.log, e, w.client.nextRead, w.client.lastProcessed);
    match w.client.run
    case InSlice(rest, s, till) => SliceTailAppend(w, e, floor, rest, s, till, f);
    case AwaitHandler(rest, s, till) => SliceTailAppend(w, e, floor, rest, s, till, f);
    case _ =>
  }

  lemma NextBelowFloor(w: World)
    requires ServerOk(w)
    ensures !Less(w.floor, w.client.nextRead)
  {
  }

  lemma InvAppend(w: World, e: Event, floor: Key, c0: nat, p0: nat, f: nat)
    requires Inv(w, c0, p0, f) && Enabled(w, Append(e, floor))
    ensures Inv(Step(w, Append(e, floor)), c0, p0, f)
  {
    hide ServerOk, CatchingUp, Less, EventsIn;
    ServerOkAppend(w, e, floor);
    NextBelowFloor(w);
    BelowFloor(w, w.client.nextRead, e);
    AppendKeepsIndices(w.log, e, w.client.nextRead, w.client.lastProcessed);
    if !w.client.allowProcessing {
      CatchingUpAppend(w, e, floor, f);
    }
    var n := |EventsIn(w.client.liveQueue)|;
    assert (w.log + [e])[f..f + n] == w.log[f..f + n];
  }

  lemma InvConfirm(w: World, till: Key, c0: nat, p0: nat, f: nat)
    requires Inv(w, c0, p0, f) && Enabled(w, Confirm(till))
    ensures Inv(Step(w, Confirm(till)), c0, p0, |w.log|)
  {
    hide ServerOk, Less, Compare, EventsIn;
    ServerOkFrame(w, Step(w, Confirm(till)));
  }

  lemma InvLost(w: World, c0: nat, p0: nat, f: nat)
    requires Inv(w, c0, p0, f) && Enabled(w, ConnectionLost)
    ensures Inv(Step(w, ConnectionLost), c0, p0, f)
  {
    hide ServerOk, Less, Compare, EventsIn, SliceTail;
    ServerOkFrame(w, Step(w, ConnectionLost));
    SliceTailFrame(w, Step(w, ConnectionLost), f);
  }

  /** Equal in all that the invariant speaks of, the promise chain aside. */
  ghost predicate SameCore(c: Client, d: Client) {
    && c.isSubscribedToAll == d.isSubscribedToAll && c.nextRead == d.nextRead && SameDelivery(c, d)
    && EventsIn(c.liveQueue) == EventsIn(d.liveQueue)
  }

  lemma InvFrame(w: World, d: Client, c0: nat, p0: nat, f: nat)
    requires Inv(w, c0, p0, f) && SameCore(w.client, d) && d.run == w.client.run
    requires d.allowProcessing == w.client.allowProcessing && (!d.allowProcessing ==> d.live == w.client.live)
    ensures Inv(w.(client := d), c0, p0, f)
  {
    hide Less, Compare, EventsIn;
  }

  /** A chain that ends without going live keeps the invariant: nothing will be processed any more. */
  lemma InvEnds(w: World, d: Client, c0: nat, p0: nat, f: nat)
    requires Inv(w, c0, p0, f) && SameCore(w.client, d) && d.run.Idle?
    requires !w.client.allowProcessing && !d.allowProcessing && d.live == w.client.live
    ensures Inv(w.(client := d), c0, p0, f)
  {
    hide Less, Compare, EventsIn, CatchingUp;
    assert CatchingUp(w.(client := d), f) by { IdleCatchingUp(w.(client := d), f); }
  }

  lemma IdleCatchingUp(w: World, f: nat)
    requires w.client.run.Idle?
    ensures CatchingUp(w, f)
  {
  }

  /** Going live needs the queue to start no later than the first unprocessed event. */
  lemma InvGoesLive(w: World, d: Client, c0: nat, p0: nat, f: nat)
    requires Inv(w, c0, p0, f) && SameCore(w.client, d) && d.run.Idle? && d.allowProcessing
    requires !w.client.allowProcessing && !w.client.run.Idle? && f <= Processed(w)
    ensures Inv(w.(client := d), c0, p0, f)
  {
    hide Less, Compare, EventsIn, CatchingUp;
  }

  lemma DropKeeps(c: Client, reason: Reason)
    ensures var d := DropSubscription(c, reason);
            && SameCore(c, d) && d.run == c.run && d.allowProcessing == c.allowProcessing && d.live == c.live
            && d.liveQueue == c.liveQueue && d.isProcessing == c.isProcessing
  {
    hide EventsIn;
  }

  lemma InvFails(w: World, c0: nat, p0: nat, f: nat)
    requires Inv(w, c0, p0, f) && !w.client.allowProcessing
    ensures Inv(w.(client := FailRun(w.client)), c0, p0, f)
  {
    hide Inv, EventsIn, DropSubscription;
    DropKeeps(w.client, CatchUpError);
    InvEnds(w, FailRun(w.client), c0, p0, f);
  }

  /** The end of the second read, or of the first after a stop. */
  lemma InvEndRun(w: World, c0: nat, p0: nat, f: nat)
    requires Inv(w, c0, p0, f) && !w.client.allowProcessing && !w.client.run.Idle?
    requires w.client.shouldStop || f <= Processed(w)
    ensures Inv(w.(client := EndRun(w.client)), c0, p0, f)
  {
    hide Inv, EventsIn, DropSubscription, Processed;
    if w.client.shouldStop {
      DropKeeps(w.client, UserInitiated);
      InvEnds(w, EndRun(w.client), c0, p0, f);
    } else {
      InvGoesLive(w, EndRun(w.client), c0, p0, f);
    }
  }

  /** A drop marker is no event. */
  lemma DropRequestKeeps(c: Client, reason: Reason)
    ensures var d := EnqueueSubscriptionDropNotification(c, reason);
            && SameCore(c, d) && d.run == c.run && d.allowProcessing == c.allowProcessing
            && (!d.allowProcessing ==> d.live == c.live)
  {
    hide EventsIn;
    EventsInSnoc(c.liveQueue, DropMarker);
  }

  lemma InvDropRequest(w: World, i: Input, c0: nat, p0: nat, f: nat)
    requires Inv(w, c0, p0, f) && (i.ServerDropped? || i.StopCalled?)
    ensures Inv(w.(client := React(w.client, i)), c0, p0, f)
  {
    hide Inv, EventsIn, EnqueueSubscriptionDropNotification;
    var c := w.client;
    if i.ServerDropped? {
      DropRequestKeeps(c, i.reason);
    } else {
      DropRequestKeeps(c.(listeners := if c.listeners > 0 then c.listeners - 1 else 0, shouldStop := true),
          UserInitiated);
    }
    InvFrame(w, React(c, i), c0, p0, f);
  }

  lemma InvPush(w: World, e: Event, c0: nat, p0: nat, f: nat)
    requires Inv(w, c0, p0, f) && Enabled(w, ToClient(EventPushed(e))) && Calm(w, ToClient(EventPushed(e)))
    ensures Inv(Step(w, ToClient(EventPushed(e))), c0, p0, f)
  {
    hide EventsIn, Less, Compare, ServerOk, SliceTail;
    EventsInSnoc(w.client.liveQueue, Pushed(e));
    ServerOkFrame(w, Step(w, ToClient(EventPushed(e))));
    SliceTailFrame(w, Step(w, ToClient(EventPushed(e))), f);
  }

  lemma ServerOkFrame(w: World, v: World)
    requires ServerOk(w) && v.log == w.log && v.floor == w.floor
    requires v.client.nextRead == w.client.nextRead && v.client.lastProcessed == w.client.lastProcessed
    ensures ServerOk(v)
  {
  }

  lemma SliceTailFrame(w: World, v: World, f: nat)
    requires v.log == w.log && v.floor == w.floor && v.client.isSubscribedToAll == w.client.isSubscribedToAll
    requires v.client.lastProcessed == w.client.lastProcessed
    ensures forall rest, s, till :: SliceTail(w, rest, s, till, f) ==> SliceTail(v, rest, s, till, f)
  {
    hide Less, Compare;
  }

  // ---- Reading ----

  /** What the stop test of the read loop guarantees: every event up to the target lies before the next cursor. */
  lemma DoneMeansCovered(w: World, s: Slice, till: Key, f: nat)
    requires SliceOk(w, s, Some(till)) && UpTo(w.log, till, f) && ReadDone(w.client.isSubscribedToAll, s, Some(till))
    ensures forall j :: 0 <= j < f ==> Less(w.log[j].key, s.next)
  {
    hide Idx;
  }

  lemma IdxAtLeast(log: seq<Event>, key: Key, f: nat)
    requires Sorted(log) && f <= |log| && forall j :: 0 <= j < f ==> Less(log[j].key, key)
    ensures f <= Idx(log, key)
  {
    hide Less;
    IdxSplits(log, key);
  }

  lemma InvSliceRead(w: World, s: Slice, c0: nat, p0: nat, f: nat)
    requires Inv(w, c0, p0, f) && Enabled(w, ToClient(ReadArrived(SliceRead(s))))
    ensures Inv(Step(w, ToClient(ReadArrived(SliceRead(s)))), c0, p0, f)
  {
    hide ServerOk, Less, Compare, EventsIn, CallsAre, QueueFrom, SliceTail;
    var v := Step(w, ToClient(ReadArrived(SliceRead(s))));
    var till := w.client.run.till;
    ServerOkFrame(w, v);
    if till.Some? && ReadDone(w.client.isSubscribedToAll, s, till) {
      DoneMeansCovered(w, s, till.value, f);
    }
    SliceTailOf(w, s, till, f);
    SliceTailFrame(w, v, f);
  }

  lemma SliceTailOf(w: World, s: Slice, till: Option<Key>, f: nat)
    requires SliceOk(w, s, till) && Read(w) <= Processed(w)
    requires till.Some? && ReadDone(w.client.isSubscribedToAll, s, till) ==>
               f <= |w.log| && forall j :: 0 <= j < f ==> Less(w.log[j].key, s.next)
    ensures SliceTail(w, s.events, s, till, f)
  {
    hide Less, Compare;
  }

  lemma InvNotFound(w: World, c0: nat, p0: nat, f: nat)
    requires Inv(w, c0, p0, f) && Enabled(w, ToClient(ReadArrived(StreamNotFound)))
    ensures Inv(Step(w, ToClient(ReadArrived(StreamNotFound))), c0, p0, f)
  {
    hide Inv, FailRun, EndRun;
    var c := w.client;
    InvBasics(w, c0, p0, f);
    if c.run.till.Some? && c.run.till.value != EventNumber(-1) {
      InvFails(w, c0, p0, f);
    } else if c.run.till.None? && !c.shouldStop {
      InvSubscribing(w, c, c0, p0, f);
    } else {
      InvEndRun(w, c0, p0, f);
    }
  }

  /** Parts of the invariant for callers that keep it folded. */
  lemma InvBasics(w: World, c0: nat, p0: nat, f: nat)
    requires Inv(w, c0, p0, f)
    ensures ServerOk(w) && f <= |w.log|
    ensures !w.client.run.Idle? ==> !w.client.allowProcessing && CatchingUp(w, f)
    ensures !w.client.allowProcessing ==> w.client.live.Off?
  {
    hide ServerOk, Less, EventsIn, SliceTail;
  }

  /** From the end of the first read to the subscribe request. */
  lemma InvSubscribing(w: World, c: Client, c0: nat, p0: nat, f: nat)
    requires c == w.client && Inv(w, c0, p0, f) && c.run == AwaitSlice(None)
    ensures Inv(w.(client := c.(run := Subscribing)), c0, p0, f)
  {
    hide ServerOk, Less, Compare, EventsIn, CallsAre, QueueFrom;
    ServerOkFrame(w, w.(client := c.(run := Subscribing)));
  }

  /** The read cursor moves to the end of a slice that has been worked off. */
  lemma InvSliceEnds(w: World, d: Client, c0: nat, p0: nat, f: nat)
    requires Inv(w, c0, p0, f) && w.client.run.InSlice? && w.client.run.rest == []
    requires d == w.client.(nextRead := w.client.run.slice.next, run := AwaitSlice(w.client.run.till))
    ensures Inv(w.(client := d), c0, p0, f)
    ensures w.client.run.till.Some? && ReadDone(w.client.isSubscribedToAll, w.client.run.slice, w.client.run.till) ==>
              f <= Processed(w.(client := d))
  {
    hide Less, Compare, EventsIn, CallsAre, QueueFrom, Idx;
    if w.client.run.till.Some? && ReadDone(w.client.isSubscribedToAll, w.client.run.slice, w.client.run.till) {
      IdxAtLeast(w.log, w.client.run.slice.next, f);
    }
  }

  lemma InvSliceContinues(w: World, throws: bool, c0: nat, p0: nat, f: nat)
    requires Inv(w, c0, p0, f) && w.client.run.InSlice? && w.client.run.rest == []
    ensures Inv(w.(client := ProcessEvents(w.client, throws)), c0, p0, f)
  {
    hide Inv, EndRun, ReadDone, Processed;
    var c := w.client;
    InvBasics(w, c0, p0, f);
    var d := c.(nextRead := c.run.slice.next, run := AwaitSlice(c.run.till));
    InvSliceEnds(w, d, c0, p0, f);
    var v := w.(client := d);
    if ReadDone(c.isSubscribedToAll, c.run.slice, c.run.till) || c.shouldStop {
      EndRunIgnoresRun(c.(nextRead := c.run.slice.next), d.run);
      if c.run.till.None? && !c.shouldStop {
        InvSubscribing(v, d, c0, p0, f);
      } else {
        InvEndRun(v, c0, p0, f);
      }
    }
  }

  lemma EndRunIgnoresRun(c: Client, run: Run)
    ensures EndRun(c) == EndRun(c.(run := run))
  {
  }

  lemma HandlesExact(w: World, i: nat)
    requires Sorted(w.log) && i < |w.log|
    ensures Handles(w.client, w.log[i]) <==> Processed(w) <= i
    ensures IdxAfter(w.log, w.log[i].key) == i + 1
  {
    hide Less;
    IdxAfterSplits(w.log, w.client.lastProcessed);
    IdxAfterAt(w.log, i);
  }

  lemma CallsSnoc(log: seq<Event>, calls: seq<Call>, c0: nat, p0: nat, q: nat, call: Call)
    requires CallsAre(log, calls, c0, p0, q) && q < |log| && call.event == log[q]
    ensures CallsAre(log, calls + [call], c0, p0, q + 1)
  {
  }

  /** A skipped event lies before the first unprocessed one. */
  lemma InvSliceSkips(w: World, throws: bool, c0: nat, p0: nat, f: nat)
    requires Inv(w, c0, p0, f) && w.client.run.InSlice? && w.client.run.rest != []
    requires !Handles(w.client, w.client.run.rest[0])
    ensures Inv(w.(client := ProcessEvents(w.client, throws)), c0, p0, f)
  {
    hide Less, Compare, EventsIn, QueueFrom, CallsAre, DropSubscription, Idx, IdxAfter;
    HandlesExact(w, Idx(w.log, w.client.run.slice.next) - |w.client.run.rest|);
    ServerOkFrame(w, w.(client := ProcessEvents(w.client, throws)));
  }

  /** An event that is handled is exactly the first unprocessed one. */
  lemma InvSliceReturns(w: World, c0: nat, p0: nat, f: nat)
    requires Inv(w, c0, p0, f) && w.client.run.InSlice? && w.client.run.rest != []
    requires Handles(w.client, w.client.run.rest[0])
    ensures Inv(w.(client := ProcessEvents(w.client, false)), c0, p0, f)
  {
    hide Less, Compare, EventsIn, QueueFrom, CallsAre, DropSubscription, Idx, IdxAfter;
    HandlesExact(w, Idx(w.log, w.client.run.slice.next) - |w.client.run.rest|);
    CallsSnoc(w.log, w.client.calls, c0, p0, Processed(w), Call(w.client.run.rest[0], true));
  }

  lemma InvSliceThrows(w: World, c0: nat, p0: nat, f: nat)
    requires Inv(w, c0, p0, f) && w.client.run.InSlice? && w.client.run.rest != []
    requires Handles(w.client, w.client.run.rest[0])
    ensures Inv(w.(client := ProcessEvents(w.client, true)), c0, p0, f)
  {
    hide Less, Compare, EventsIn, QueueFrom, CallsAre, DropSubscription, Idx, IdxAfter;
    HandlesExact(w, Idx(w.log, w.client.run.slice.next) - |w.client.run.rest|);
    DropKeeps(TryProcess(w.client, w.client.run.rest[0], true), CatchUpError);
    CallsSnoc(w.log, w.client.calls, c0, p0, Processed(w), Call(w.client.run.rest[0], false));
    ServerOkFrame(w, w.(client := ProcessEvents(w.client, true)));
  }

  lemma InvSlice(w: World, throws: bool, c0: nat, p0: nat, f: nat)
    requires Inv(w, c0, p0, f) && w.client.run.InSlice?
    ensures Inv(w.(client := ProcessEvents(w.client, throws)), c0, p0, f)
  {
    hide Inv, TryProcess, Handles;
    if w.client.run.rest == [] {
      InvSliceContinues(w, throws, c0, p0, f);
    } else if !Handles(w.client, w.client.run.rest[0]) {
      InvSliceSkips(w, throws, c0, p0, f);
    } else if throws {
      InvSliceThrows(w, c0, p0, f);
    } else {
      InvSliceReturns(w, c0, p0, f);
    }
  }

  lemma InvHandlerSettled(w: World, fulfilled: bool, c0: nat, p0: nat, f: nat)
    requires Inv(w, c0, p0, f) && w.client.run.AwaitHandler?
    ensures Inv(w.(client := OnHandlerSettled(w.client, fulfilled)), c0, p0, f)
  {
    hide Less, Compare, EventsIn, QueueFrom, CallsAre, FailRun, ServerOk, SliceTail;
    if fulfilled {
      var v := w.(client := OnHandlerSettled(w.client, fulfilled));
      ServerOkFrame(w, v);
      SliceTailFrame(w, v, f);
    } else {
      InvFails(w, c0, p0, f);
    }
  }

  lemma InvSubscribed(w: World, till: Key, c0: nat, p0: nat, f: nat)
    requires Inv(w, c0, p0, f) && Enabled(w, ToClient(SubscribeConfirmed(till)))
    ensures Inv(Step(w, ToClient(SubscribeConfirmed(till))), c0, p0, f)
  {
    hide Less, Compare, EventsIn, QueueFrom, CallsAre, ServerOk;
    ServerOkFrame(w, Step(w, ToClient(SubscribeConfirmed(till))));
  }

  // ---- Live processing ----

  lemma InvLiveMarker(w: World, c0: nat, p0: nat, f: nat)
    requires Inv(w, c0, p0, f) && w.client.allowProcessing
    requires w.client.liveQueue != [] && w.client.liveQueue[0].DropMarker?
    ensures Inv(w.(client := ProcessDropMarker(Shift(w.client))), c0, p0, f)
  {
    hide Inv, DropSubscription;
    var c := Shift(w.client);
    var reason := if c.dropData.Some? then c.dropData.value else Unknown;
    DropKeeps(c.(dropData := Some(reason)), reason);
    InvFrame(w, ProcessDropMarker(c), c0, p0, f);
  }

  lemma ShiftEvents(q: seq<Item>)
    requires q != [] && q[0].Pushed?
    ensures EventsIn(q) == [q[0].event] + EventsIn(q[1..])
  {
  }

  lemma QueueShift(log: seq<Event>, queue: seq<Event>, push: Option<nat>, f: nat)
    requires QueueFrom(log, queue, push, f) && queue != []
    ensures f < |log| && queue[0] == log[f] && QueueFrom(log, queue[1..], push, f + 1)
  {
  }

  /** Assembling the invariant after the front event of the queue has been looked at. */
  lemma InvLiveFrom(w: World, d: Client, c0: nat, p0: nat, f: nat)
    requires Inv(w, c0, p0, f) && w.client.allowProcessing && EventsIn(w.client.liveQueue) != []
    requires d.allowProcessing && d.run == w.client.run && EventsIn(d.liveQueue) == EventsIn(w.client.liveQueue)[1..]
    requires c0 <= |d.calls|
    requires var (v, q) := (w.(client := d), p0 + |d.calls| - c0);
             && ServerOk(v) && CallsAre(w.log, d.calls, c0, p0, q) && Processed(v) <= q
             && ((f + 1 < Processed(v) && Processed(v) == q) || f + 1 == q)
    ensures Inv(w.(client := d), c0, p0, f + 1)
  {
    hide ServerOk, CallsAre, QueueFrom, EventsIn, IdxAfter, CatchingUp;
    QueueShift(w.log, EventsIn(w.client.liveQueue), w.push, f);
  }

  lemma InvLiveSkips(w: World, throws: bool, c0: nat, p0: nat, f: nat)
    requires Inv(w, c0, p0, f) && w.client.allowProcessing
    requires FrontEvent(w.client.liveQueue).Some? && !Handles(w.client, w.client.liveQueue[0].event)
    ensures Inv(w.(client := ProcessPushed(Shift(w.client), w.client.liveQueue[0].event, throws)), c0, p0, f + 1)
  {
    hide Less, Compare, EventsIn, QueueFrom, CallsAre, ServerOk, IdxAfter, CatchingUp;
    var d := ProcessPushed(Shift(w.client), w.client.liveQueue[0].event, throws);
    ShiftEvents(w.client.liveQueue);
    QueueShift(w.log, EventsIn(w.client.liveQueue), w.push, f);
    SortedOf(w);
    HandlesExact(w, f);
    ServerOkFrame(w, w.(client := d));
    InvLiveFrom(w, d, c0, p0, f);
  }

  lemma SortedOf(w: World)
    requires ServerOk(w)
    ensures Sorted(w.log)
  {
  }

  lemma InvLiveReturns(w: World, c0: nat, p0: nat, f: nat)
    requires Inv(w, c0, p0, f) && w.client.allowProcessing
    requires FrontEvent(w.client.liveQueue).Some? && Handles(w.client, w.client.liveQueue[0].event)
    ensures Inv(w.(client := ProcessPushed(Shift(w.client), w.client.liveQueue[0].event, false)), c0, p0, f + 1)
  {
    hide Less, Compare, EventsIn, QueueFrom, CallsAre, IdxAfter, CatchingUp;
    var e := w.client.liveQueue[0].event;
    var d := ProcessPushed(Shift(w.client), e, false);
    ShiftEvents(w.client.liveQueue);
    QueueShift(w.log, EventsIn(w.client.liveQueue), w.push, f);
    HandlesExact(w, f);
    CallsSnoc(w.log, w.client.calls, c0, p0, f, Call(e, true));
    InvLiveFrom(w, d, c0, p0, f);
  }

  lemma InvLiveThrows(w: World, c0: nat, p0: nat, f: nat)
    requires Inv(w, c0, p0, f) && w.client.allowProcessing
    requires FrontEvent(w.client.liveQueue).Some? && Handles(w.client, w.client.liveQueue[0].event)
    ensures Inv(w.(client := ProcessPushed(Shift(w.client), w.client.liveQueue[0].event, true)), c0, p0, f + 1)
  {
    hide Less, Compare, EventsIn, QueueFrom, CallsAre, ServerOk, IdxAfter, CatchingUp, DropSubscription;
    var e := w.client.liveQueue[0].event;
    var c' := TryProcess(Shift(w.client), e, true);
    var d := ProcessPushed(Shift(w.client), e, true);
    ShiftEvents(w.client.liveQueue);
    QueueShift(w.log, EventsIn(w.client.liveQueue), w.push, f);
    SortedOf(w);
    HandlesExact(w, f);
    DropKeeps(c', EventHandlerException);
    CallsSnoc(w.log, w.client.calls, c0, p0, f, Call(e, false));
    ServerOkFrame(w, w.(client := d));
    InvLiveFrom(w, d, c0, p0, f);
  }

  /** `f'` is where the queue starts afterwards. */
  lemma InvLive(w: World, throws: bool, c0: nat, p0: nat, f: nat) returns (f': nat)
    requires Inv(w, c0, p0, f) && w.client.allowProcessing
    ensures Inv(w.(client := ProcessLiveQueue(w.client, throws)), c0, p0, f')
  {
    hide Inv, ProcessDropMarker, ProcessPushed, Less;
    var c := w.client;
    f' := f;
    if c.liveQueue == [] {
      InvFrame(w, StopLive(c), c0, p0, f);
    } else if c.liveQueue[0].DropMarker? {
      InvLiveMarker(w, c0, p0, f);
    } else {
      f' := f + 1;
      if !Handles(c, c.liveQueue[0].event) {
        InvLiveSkips(w, throws, c0, p0, f);
      } else if throws {
        InvLiveThrows(w, c0, p0, f);
      } else {
        InvLiveReturns(w, c0, p0, f);
      }
    }
  }

  lemma InvLiveSettled(w: World, fulfilled: bool, throws: bool, c0: nat, p0: nat, f: nat) returns (f': nat)
    requires Inv(w, c0, p0, f) && w.client.allowProcessing
    ensures Inv(w.(client := OnLiveSettled(w.client, fulfilled, throws)), c0, p0, f')
  {
    hide Inv, ProcessLiveQueue, DropSubscription, EventsIn;
    if fulfilled {
      f' := InvLive(w, throws, c0, p0, f);
    } else {
      f' := f;
      DropKeeps(w.client, EventHandlerException);
      InvFrame(w, OnLiveSettled(w.client, false, throws), c0, p0, f);
    }
  }

  lemma InvClientStep(w: World, i: Input, c0: nat, p0: nat, f: nat) returns (f': nat)
    requires Inv(w, c0, p0, f) && Enabled(w, ToClient(i)) && Calm(w, ToClient(i))
    ensures Inv(Step(w, ToClient(i)), c0, p0, f')
    ensures !w.client.allowProcessing ==> f' == f
  {
    hide Inv, OnReadResult, ProcessEvents, OnHandlerSettled, OnSubscribed, FailRun, EnqueuePushedEvent,
      EnqueueSubscriptionDropNotification, StopRequested, ProcessLiveQueue, OnLiveSettled, SliceOk, Less;
    f' := f;
    InvBasics(w, c0, p0, f);
    match i
    case ReadArrived(SliceRead(s)) => InvSliceRead(w, s, c0, p0, f);
    case ReadArrived(StreamNotFound) => InvNotFound(w, c0, p0, f);
    case ReadArrived(Failed) =>
      if w.client.run.AwaitSlice? {
        ReadFailed(w.client);
        InvFails(w, c0, p0, f);
      }
    case SliceContinues(throws) => if w.client.run.InSlice? { InvSlice(w, throws, c0, p0, f); }
    case HandlerSettled(ok) => if w.client.run.AwaitHandler? { InvHandlerSettled(w, ok, c0, p0, f); }
    case SubscribeConfirmed(till) => InvSubscribed(w, till, c0, p0, f);
    case SubscribeFailed => if w.client.run.Subscribing? { InvFails(w, c0, p0, f); }
    case EventPushed(e) => InvPush(w, e, c0, p0, f);
    case ServerDropped(_) => InvDropRequest(w, i, c0, p0, f);
    case StopCalled => InvDropRequest(w, i, c0, p0, f);
    case LiveContinues(throws) => if w.client.live.Scheduled? { f' := InvLive(w, throws, c0, p0, f); }
    case LiveSettled(ok, throws) =>
      if w.client.live.Awaiting? && (ok || w.client.live.called) {
        f' := InvLiveSettled(w, ok, throws, c0, p0, f);
      }
  }

  lemma ReadFailed(c: Client)
    requires c.run.AwaitSlice?
    ensures OnReadResult(c, Failed) == FailRun(c)
  {
  }

  lemma InvStep(w: World, a: Action, c0: nat, p0: nat, f: nat) returns (f': nat)
    requires Inv(w, c0, p0, f) && Enabled(w, a) && Calm(w, a)
    ensures Inv(Step(w, a), c0, p0, f')
    ensures !w.client.allowProcessing && !a.Confirm? ==> f' == f
    ensures a.Confirm? ==> f' == |w.log|
  {
    hide Inv, React, SliceOk, Less;
    f' := f;
    match a
    case Append(e, floor) => InvAppend(w, e, floor, c0, p0, f);
    case Confirm(till) =>
      InvConfirm(w, till, c0, p0, f);
      f' := |w.log|;
    case ConnectionLost => InvLost(w, c0, p0, f);
    case ToClient(i) => f' := InvClientStep(w, i, c0, p0, f);
  }

  lemma {:induction false} InvExec(w: World, actions: seq<Action>, c0: nat, p0: nat, f: nat) returns (f': nat)
    requires Inv(w, c0, p0, f) && CalmRun(w, actions)
    ensures Inv(Exec(w, actions), c0, p0, f')
    decreases |actions|
  {
    hide Inv, Step, Enabled, Calm;
    f' := f;
    if actions != [] {
      var g := InvStep(w, actions[0], c0, p0, f);
      f' := InvExec(Step(w, actions[0]), actions[1..], c0, p0, g);
    }
  }

  // ---- Main results ----

  /** The calls of `v` continue those of `w` with the events right behind the checkpoint, one call each, in order. */
  ghost predicate GapFree(w: World, v: World) {
    var (c0, p0) := (|w.client.calls|, Processed(w));
    && c0 <= |v.client.calls| && p0 + |v.client.calls| - c0 <= |v.log|
    && v.client.calls[..c0] == w.client.calls
    && (forall i :: c0 <= i < |v.client.calls| ==> v.client.calls[i].event == v.log[p0 + i - c0])
  }

  /**
   * Where an event is that has not been handed over: while the client reads, at or behind the read cursor or in the
   * slice being worked off; once it is live and the event has been pushed, in the queue.
   */
  ghost predicate Waiting(w: World, j: nat)
    requires j < |w.log|
  {
    if w.client.allowProcessing then
      w.push.Some? && j < w.push.value ==> w.log[j] in EventsIn(w.client.liveQueue)
    else
      match w.client.run
      case AwaitSlice(_) => Read(w) <= j
      case Subscribing => Read(w) <= j
      case InSlice(rest, s, _) => w.log[j] in rest || Idx(w.log, s.next) <= j
      case AwaitHandler(rest, s, _) => w.log[j] in rest || Idx(w.log, s.next) <= j
      case Idle => true
  }

  lemma InvWaiting(w: World, c0: nat, p0: nat, f: nat, j: nat)
    requires Inv(w, c0, p0, f) && p0 + |w.client.calls| - c0 <= j < |w.log|
    ensures Waiting(w, j)
  {
    hide ServerOk, CallsAre, Less, Compare, EventsIn, Idx, IdxAfter;
    if w.client.allowProcessing {
      if w.push.Some? && j < w.push.value {
        assert EventsIn(w.client.liveQueue)[j - f] == w.log[j];
      }
    } else if w.client.run.InSlice? {
      InRest(w, w.client.run.rest, Idx(w.log, w.client.run.slice.next), j);
    } else if w.client.run.AwaitHandler? {
      InRest(w, w.client.run.rest, Idx(w.log, w.client.run.slice.next), j);
    }
  }

  lemma InRest(w: World, rest: seq<Event>, k: nat, j: nat)
    requires |rest| <= k <= |w.log| && rest == w.log[k - |rest|..k] && k - |rest| <= j < |w.log|
    ensures w.log[j] in rest || k <= j
  {
    if j < k {
      assert rest[j - (k - |rest|)] == w.log[j];
    }
  }

  /** Nothing is on its way any more: the client is live, its queue is empty and the server has pushed its whole log. */
  ghost predicate Settled(w: World) {
    w.client.allowProcessing && EventsIn(w.client.liveQueue) == [] && w.push == Some(|w.log|)
  }

  /**
   * In every run from the start of a subscription, however appends, reads, the confirmation, pushes, handler
   * outcomes, stops and drops interleave: the handler is called for a contiguous segment of the log starting behind
   * the checkpoint, and for all of it once everything has settled. On the way nothing is lost: every event not yet
   * handed over is still to be read, in the slice being worked off, or in the queue.
   */
  lemma RunIsGapFree(w: World, actions: seq<Action>)
    requires Starting(w) && CalmRun(w, actions)
    ensures var v := Exec(w, actions);
            && GapFree(w, v)
            && (Settled(v) ==> Processed(w) + |v.client.calls| - |w.client.calls| == |v.log|)
            && (forall j :: Processed(w) + |v.client.calls| - |w.client.calls| <= j < |v.log| ==> Waiting(v, j))
  {
    hide Step, Enabled, Calm, Less, Waiting;
    var c0, p0 := |w.client.calls|, Processed(w);
    StartingInv(w);
    var f := InvExec(w, actions, c0, p0, 0);
    ExecKeepsCalls(w, actions);
    var v := Exec(w, actions);
    forall j | p0 + |v.client.calls| - c0 <= j < |v.log| ensures Waiting(v, j) {
      InvWaiting(v, c0, p0, f, j);
    }
  }

  lemma {:induction false} ExecKeepsCalls(w: World, actions: seq<Action>)
    requires CalmRun(w, actions)
    ensures w.client.calls <= Exec(w, actions).client.calls
    decreases |actions|
  {
    hide React, Enabled, Calm;
    if actions != [] {
      if actions[0].ToClient? {
        ReactCalls(w.client, actions[0].input);
      }
      ExecKeepsCalls(Step(w, actions[0]), actions[1..]);
    }
  }
}
