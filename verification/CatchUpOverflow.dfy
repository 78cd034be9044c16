/** Runs in which a push meets a full queue: how long they stay gap-free, and how they lose an event after that. */
module CatchUpOverflow {
  import opened Wrappers
  import opened CatchUp
  import opened CatchUpCoherence
  import opened CatchUpLoss
  import opened CatchUpReconnections
  import opened CatchUpRuns

  /** A push that finds no room: the event is lost, and a drop is asked for. */
  predicate Overflows(w: World, a: Action) {
    a.ToClient? && a.input.EventPushed? && |w.client.liveQueue| >= w.client.maxPushQueueSize
  }

  /** No reconnection, and once a push has been lost none is accepted any more. */
  ghost predicate NoneAfterLoss(w: World, lost: bool, actions: seq<Action>)
    decreases |actions|
  {
    actions == []
    || (actions[0] != ToClient(Reconnected)
        && (lost && actions[0].ToClient? && actions[0].input.EventPushed? ==> Overflows(w, actions[0]))
        && NoneAfterLoss(Step(w, actions[0]), lost || Overflows(w, actions[0]), actions[1..]))
  }

  // ---- Gap-free up to the next push that is accepted ----

  /** As if the server pushed nothing more. */
  function Quiet(w: World): World { w.(push := None) }

  lemma InvQuiet(w: World, c0: nat, p0: nat, f: nat)
    requires Inv(w, c0, p0, f)
    ensures Inv(Quiet(w), c0, p0, f)
  {
    hide Less, Compare, EventsIn, SliceTail, ServerOk;
    ServerOkFrame(w, Quiet(w));
    SliceTailFrame(w, Quiet(w), f);
  }

  lemma OverflowClient(c: Client, e: Event)
    requires |c.liveQueue| >= c.maxPushQueueSize
    ensures var d := React(c, ServerDropped(ProcessingQueueOverflow));
            React(c, EventPushed(e)) == d.(unsubscribes := d.unsubscribes + 1)
  {
    hide EnqueueSubscriptionDropNotification;
  }

  lemma InvOverflow(w: World, e: Event, c0: nat, p0: nat, f: nat)
    requires Inv(w, c0, p0, f) && |w.client.liveQueue| >= w.client.maxPushQueueSize
    ensures Inv(w.(client := React(w.client, EventPushed(e))), c0, p0, f)
  {
    hide Inv, EventsIn, React;
    OverflowClient(w.client, e);
    InvDropRequest(w, ServerDropped(ProcessingQueueOverflow), c0, p0, f);
    var d := React(w.client, ServerDropped(ProcessingQueueOverflow));
    InvFrame(w.(client := d), d.(unsubscribes := d.unsubscribes + 1), c0, p0, f);
  }

  /** Where a run stands, before the first loss or after it. */
  ghost predicate Standing(w: World, lost: bool, c0: nat, p0: nat, f: nat) {
    Inv(if lost then Quiet(w) else w, c0, p0, f)
  }

  lemma StandingStep(w: World, lost: bool, a: Action, c0: nat, p0: nat, f: nat) returns (f': nat)
    requires Standing(w, lost, c0, p0, f) && Enabled(w, a) && a != ToClient(Reconnected)
    requires lost && a.ToClient? && a.input.EventPushed? ==> Overflows(w, a)
    ensures Standing(Step(w, a), lost || Overflows(w, a), c0, p0, f')
  {
    hide Inv, React, SliceOk, Less;
    f' := f;
    if Overflows(w, a) {
      var v := if lost then Quiet(w) else w;
      InvOverflow(v, a.input.event, c0, p0, f);
      InvQuiet(v.(client := React(w.client, a.input)), c0, p0, f);
    } else if !lost {
      f' := InvStep(w, a, c0, p0, f);
    } else if a.Confirm? {
      assert w == Quiet(w);
      f' := InvStep(w, a, c0, p0, f);
      InvQuiet(Step(w, a), c0, p0, f');
    } else if !a.ConnectionLost? {
      QuietEnabled(w, a);
      f' := InvStep(Quiet(w), a, c0, p0, f);
    }
  }

  lemma QuietEnabled(w: World, a: Action)
    requires Enabled(w, a) && a != ToClient(Reconnected) && !a.Confirm? && !a.ConnectionLost?
    requires a.ToClient? ==> !a.input.EventPushed?
    ensures Enabled(Quiet(w), a) && Calm(Quiet(w), a) && Step(Quiet(w), a) == Quiet(Step(w, a))
  {
    hide React, Less, Compare, Idx;
  }

  lemma {:induction false} StandingExec(w: World, lost: bool, actions: seq<Action>, c0: nat, p0: nat, f: nat)
    returns (lost': bool, f': nat)
    requires Standing(w, lost, c0, p0, f) && Possible(w, actions) && NoneAfterLoss(w, lost, actions)
    ensures Standing(Exec(w, actions), lost', c0, p0, f')
    decreases |actions|
  {
    hide Standing, Step, Enabled, Overflows;
    lost', f' := lost, f;
    if actions != [] {
      f' := StandingStep(w, lost, actions[0], c0, p0, f);
      lost', f' := StandingExec(Step(w, actions[0]), lost || Overflows(w, actions[0]), actions[1..], c0, p0, f');
    }
  }

  lemma {:induction false} CallsStay(w: World, actions: seq<Action>)
    requires Possible(w, actions)
    ensures w.client.calls <= Exec(w, actions).client.calls
    decreases |actions|
  {
    hide React, Enabled, TryProcess;
    if actions != [] {
      if actions[0].ToClient? {
        ReactCalls(w.client, actions[0].input);
        if Attempt(w.client, actions[0].input).Some? {
          TriedCalls(w.client, Attempt(w.client, actions[0].input).value, Throws(actions[0].input));
        }
      }
      CallsStay(Step(w, actions[0]), actions[1..]);
    }
  }

  lemma TriedCalls(c: Client, e: Event, throws: bool)
    ensures c.calls <= TryProcess(c, e, throws).calls
  {
    hide Less;
  }

  /**
   * A first run in which pushes meet a full queue stays gap-free as long as none is accepted after the first that was
   * lost.
   */
  lemma OverflowKeepsGapFree(w: World, actions: seq<Action>)
    requires Starting(w) && Possible(w, actions) && NoneAfterLoss(w, false, actions)
    ensures GapFree(w, Exec(w, actions))
  {
    hide Step, Enabled, Less, Starting, Inv;
    StartingInv(w);
    var lost, f := StandingExec(w, false, actions, |w.client.calls|, Processed(w), 0);
    CallsStay(w, actions);
    var v := Exec(w, actions);
    CallsOf(if lost then Quiet(v) else v, |w.client.calls|, Processed(w), f);
  }

  // ---- A push accepted after a lost one ----

  /** No call between `c` and `d` is for the event with this key. */
  ghost predicate Spared(c: Client, d: Client, k: Key) {
    c.calls <= d.calls && forall i :: |c.calls| <= i < |d.calls| ==> d.calls[i].event.key != k
  }

  lemma SparedTrans(a: Client, b: Client, c: Client, k: Key)
    requires Spared(a, b, k) && Spared(b, c, k)
    ensures Spared(a, c, k)
  {
    assert forall i :: |a.calls| <= i < |b.calls| ==> c.calls[i] == b.calls[i];
  }

  /** A live client that keeps up with the server, with nothing but events queued. */
  ghost predicate KeepingUp(w: World) {
    var c := w.client;
    && FlagsOk(c) && c.allowProcessing && c.dropData.None? && w.push == Some(|w.log|)
    && |c.liveQueue| <= c.maxPushQueueSize && Less(c.lastProcessed, w.floor)
    && forall i :: 0 <= i < |c.liveQueue| ==> c.liveQueue[i].Pushed? && Less(c.liveQueue[i].event.key, w.floor)
  }

  function NextEvent(w: World): Event { Event(w.floor, 0) }

  /** One more event, appended and pushed. */
  function Pushing(w: World): World {
    Step(Step(w, Append(NextEvent(w), Above(w.floor))), ToClient(EventPushed(NextEvent(w))))
  }

  lemma PushingRun(w: World, rest: seq<Action>)
    requires w.push == Some(|w.log|) && Possible(Pushing(w), rest)
    ensures var actions := [Append(NextEvent(w), Above(w.floor))] + ([ToClient(EventPushed(NextEvent(w)))] + rest);
            Possible(w, actions) && Exec(w, actions) == Exec(Pushing(w), rest)
  {
    hide Possible, Exec, React, Less;
    FreshKeys(w.floor);
    var a, b := Append(NextEvent(w), Above(w.floor)), ToClient(EventPushed(NextEvent(w)));
    PossibleCons(Step(w, a), b, Pushing(w), rest);
    PossibleCons(w, a, Step(w, a), [b] + rest);
  }

  lemma PushFits(c: Client, e: Event)
    requires FlagsOk(c) && c.allowProcessing && |c.liveQueue| < c.maxPushQueueSize
    ensures var d := React(c, EventPushed(e));
            && d == c.(liveQueue := c.liveQueue + [Pushed(e)], isProcessing := true,
                       live := if c.live.Off? then Scheduled else c.live)
            && FlagsOk(d)
  {
  }

  lemma {:induction false} Fills(w: World) returns (actions: seq<Action>)
    requires KeepingUp(w)
    ensures Possible(w, actions)
    ensures var v := Exec(w, actions);
            && KeepingUp(v) && |v.client.liveQueue| == v.client.maxPushQueueSize && v.client.calls == w.client.calls
            && v.client.lastProcessed == w.client.lastProcessed && (v.floor == w.floor || Less(w.floor, v.floor))
            && v.client.maxPushQueueSize == w.client.maxPushQueueSize
    decreases w.client.maxPushQueueSize - |w.client.liveQueue|
  {
    hide Possible, Exec, React, Less, FlagsOk;
    if |w.client.liveQueue| == w.client.maxPushQueueSize {
      NothingDone(w);
      actions := [];
    } else {
      var v := Pushing(w);
      PushFits(w.client, NextEvent(w));
      FloorRises(w.floor);
      KeptBelow(w, v);
      var rest := Fills(v);
      PushingRun(w, rest);
      actions := [Append(NextEvent(w), Above(w.floor))] + ([ToClient(EventPushed(NextEvent(w)))] + rest);
      LessTrans(w.floor, v.floor, Exec(v, rest).floor);
    }
  }

  lemma FloorRises(floor: Key)
    ensures Less(floor, Above(floor)) && !Less(floor, floor)
    ensures forall k :: Less(k, floor) ==> Less(k, Above(floor))
  {
  }

  lemma KeptBelow(w: World, v: World)
    requires KeepingUp(w) && Less(w.floor, v.floor) && v.floor == Above(w.floor)
    requires v.client.liveQueue == w.client.liveQueue + [Pushed(NextEvent(w))]
    ensures forall i :: 0 <= i < |v.client.liveQueue| ==>
              v.client.liveQueue[i].Pushed? && Less(v.client.liveQueue[i].event.key, v.floor)
  {
    hide Less, FlagsOk;
    FloorRises(w.floor);
    forall i | 0 <= i < |v.client.liveQueue|
      ensures v.client.liveQueue[i].Pushed? && Less(v.client.liveQueue[i].event.key, v.floor)
    {
      if i < |w.client.liveQueue| { assert v.client.liveQueue[i] == w.client.liveQueue[i]; }
    }
  }

  /** After an overflow: the queue runs up to the drop marker at its end, over events before the lost one. */
  ghost predicate Draining(w: World, k: Key) {
    var (c, n) := (w.client, |w.client.liveQueue| - 1);
    && FlagsOk(c) && c.allowProcessing && !c.live.Off? && w.push == Some(|w.log|) && 0 < c.maxPushQueueSize
    && n >= 0 && c.liveQueue[n].DropMarker? && Less(c.lastProcessed, k) && Less(k, w.floor)
    && forall i :: 0 <= i < n ==> c.liveQueue[i].Pushed? && Less(c.liveQueue[i].event.key, k)
  }

  lemma OverflowDrains(w: World)
    requires KeepingUp(w) && |w.client.liveQueue| == w.client.maxPushQueueSize && 0 < w.client.maxPushQueueSize
    ensures var v := Pushing(w);
            && Draining(v, w.floor) && v.client.calls == w.client.calls && v.log == w.log + [NextEvent(w)]
  {
    hide Less;
    FloorRises(w.floor);
    var c := w.client;
    var d := React(c, EventPushed(NextEvent(w)));
    assert forall i :: 0 <= i < |c.liveQueue| ==> d.liveQueue[i] == c.liveQueue[i];
  }

  /** A turn of the queue in front of the marker, or at it. */
  lemma DrainTurn(w: World, k: Key)
    requires Draining(w, k)
    ensures var v := w.(client := ProcessLiveQueue(w.client, false));
            && Spared(w.client, v.client, k) && Less(v.client.lastProcessed, k) && FlagsOk(v.client)
            && v.client.allowProcessing && v.client.maxPushQueueSize == w.client.maxPushQueueSize
            && v.client.liveQueue == w.client.liveQueue[1..]
            && (if |w.client.liveQueue| == 1 then v.client.live.Off? else Draining(v, k))
  {
    hide FlagsOk, DropSubscription, Less;
    var c := w.client;
    KeyNotLess(k);
    LiveFlags(c, false);
    if |c.liveQueue| == 1 {
      MarkerTurn(c);
    } else {
      EventTurn(c);
    }
  }

  lemma MarkerTurn(c: Client)
    requires c.liveQueue != [] && c.liveQueue[0].DropMarker?
    ensures var d := ProcessLiveQueue(c, false);
            && d.live.Off? && d.liveQueue == c.liveQueue[1..] && SameDelivery(c, d)
            && d.allowProcessing == c.allowProcessing && d.maxPushQueueSize == c.maxPushQueueSize
  {
    hide DropSubscription;
    var reason := if c.dropData.Some? then c.dropData.value else Unknown;
    DropSide(Shift(c).(dropData := Some(reason)), reason);
  }

  lemma EventTurn(c: Client)
    requires FrontEvent(c.liveQueue).Some?
    ensures var (d, e) := (ProcessLiveQueue(c, false), c.liveQueue[0].event);
            && d.live.Awaiting? && d.liveQueue == c.liveQueue[1..]
            && d.allowProcessing == c.allowProcessing && d.maxPushQueueSize == c.maxPushQueueSize
            && (if Handles(c, e) then d.calls == c.calls + [Call(e, true)] && d.lastProcessed == e.key
                else SameDelivery(c, d))
  {
    hide Less;
  }

  lemma {:induction false} Drains(w: World, k: Key) returns (actions: seq<Action>)
    requires Draining(w, k)
    ensures Possible(w, actions)
    ensures var v := Exec(w, actions);
            && v.log == w.log && v.floor == w.floor && v.push == w.push && Spared(w.client, v.client, k)
            && FlagsOk(v.client) && v.client.allowProcessing && v.client.live.Off? && v.client.liveQueue == []
            && v.client.maxPushQueueSize == w.client.maxPushQueueSize && Less(v.client.lastProcessed, k)
    decreases |w.client.liveQueue|
  {
    hide Possible, Exec, React, Less, FlagsOk, ProcessLiveQueue, Spared, Draining;
    DrainStep(w, k);
    var a := ToClient(NextTurn(w.client));
    var v := Step(w, a);
    var rest;
    if |w.client.liveQueue| == 1 {
      NothingDone(v);
      SparedSelf(v.client, k);
      rest := [];
    } else {
      rest := Drains(v, k);
    }
    PossibleCons(w, a, v, rest);
    SparedTrans(w.client, v.client, Exec(v, rest).client, k);
    actions := [a] + rest;
  }

  lemma SparedSelf(c: Client, k: Key)
    ensures Spared(c, c, k)
  {
  }

  lemma DrainStep(w: World, k: Key)
    requires Draining(w, k)
    ensures w.client.liveQueue != []
    ensures var v := Step(w, ToClient(NextTurn(w.client)));
            && Enabled(w, ToClient(NextTurn(w.client))) && v == w.(client := ProcessLiveQueue(w.client, false))
            && Spared(w.client, v.client, k) && Less(v.client.lastProcessed, k) && FlagsOk(v.client)
            && v.client.allowProcessing && v.client.maxPushQueueSize == w.client.maxPushQueueSize
            && v.client.liveQueue == w.client.liveQueue[1..]
            && (if |w.client.liveQueue| == 1 then v.client.live.Off? else Draining(v, k))
  {
    hide React, Less, FlagsOk, ProcessLiveQueue, Spared;
    DrainTurn(w, k);
    TurnTaken(w.client);
  }

  /** The queue is empty again: the next event is pushed and handed over. */
  lemma NextHandled(w: World, k: Key) returns (actions: seq<Action>)
    requires FlagsOk(w.client) && w.client.allowProcessing && w.client.live.Off? && w.client.liveQueue == []
    requires 0 < w.client.maxPushQueueSize && w.push == Some(|w.log|)
    requires Less(w.client.lastProcessed, k) && Less(k, w.floor)
    ensures Possible(w, actions)
    ensures var v := Exec(w, actions);
            v.log == w.log + [NextEvent(w)] && Spared(w.client, v.client, k) && v.client.lastProcessed == w.floor
  {
    hide Possible, Exec, React, Less, FlagsOk;
    var u := Pushing(w);
    PushFits(w.client, NextEvent(w));
    var a := ToClient(LiveContinues(false));
    var v := Step(u, a);
    LessTrans(w.client.lastProcessed, k, w.floor);
    KeyNotLess(k);
    TurnTaken(u.client);
    EventTurn(u.client);
    NothingDone(v);
    PossibleCons(u, a, v, []);
    PushingRun(w, [a] + []);
    actions := [Append(NextEvent(w), Above(w.floor))] + ([ToClient(EventPushed(NextEvent(w)))] + ([a] + []));
  }

  lemma {:induction false} PossibleAppend(w: World, a: seq<Action>, b: seq<Action>)
    requires Possible(w, a) && Possible(Exec(w, a), b)
    ensures Possible(w, a + b) && Exec(w, a + b) == Exec(Exec(w, a), b)
    decreases |a|
  {
    hide Step, Enabled;
    if a == [] {
      assert a + b == b;
    } else {
      assert (a + b)[0] == a[0] && (a + b)[1..] == a[1..] + b;
      PossibleAppend(Step(w, a[0]), a[1..], b);
    }
  }

  /**
   * A live client that keeps up can lose an event to an overflow and go on behind it: the event that meets the full
   * queue is lost; the queue runs empty and drops the subscription; and the next event the server pushes is accepted
   * and handed over all the same, because a push does not look whether the subscription has been dropped.
   */
  lemma OverflowCanLose(w: World) returns (actions: seq<Action>, lost: Event)
    requires KeepingUp(w) && 0 < w.client.maxPushQueueSize
    ensures Possible(w, actions)
    ensures var v := Exec(w, actions); lost in v.log && Lost(w.client, v.client, lost)
  {
    hide Possible, Exec, React, Less, FlagsOk, KeepingUp, Draining, Spared, Pushing;
    var first := Fills(w);
    var u := Exec(w, first);
    var k := u.floor;
    OverflowDrains(u);
    PushingWorld(u);
    DrainingPushes(Pushing(u), k);
    var second := Drains(Pushing(u), k);
    var x := Exec(Pushing(u), second);
    var third := NextHandled(x, k);
    PossibleAppend(Pushing(u), second, third);
    KeepsPush(u);
    PushingRun(u, second + third);
    var a, b := Append(NextEvent(u), Above(u.floor)), ToClient(EventPushed(NextEvent(u)));
    PossibleAppend(w, first, [a] + ([b] + (second + third)));
    actions, lost := first + ([a] + ([b] + (second + third))), NextEvent(u);
    SparedTrans(Pushing(u).client, x.client, Exec(x, third).client, k);
    LostOf(w, u, Exec(x, third), k);
  }

  lemma KeepsPush(w: World)
    requires KeepingUp(w)
    ensures w.push == Some(|w.log|) && Less(w.client.lastProcessed, w.floor)
  {
    hide Less, FlagsOk;
  }

  lemma DrainingPushes(w: World, k: Key)
    requires Draining(w, k)
    ensures 0 < w.client.maxPushQueueSize && w.push == Some(|w.log|)
  {
    hide Less, FlagsOk;
  }

  lemma PushingWorld(w: World)
    ensures Pushing(w).floor == Above(w.floor) && Less(w.floor, Above(w.floor))
            && Pushing(w).log == w.log + [NextEvent(w)]
  {
    hide React;
  }

  lemma LostOf(w: World, u: World, v: World, k: Key)
    requires Less(u.client.lastProcessed, k) && u.client.lastProcessed == w.client.lastProcessed
    requires u.client.calls == w.client.calls && Spared(u.client, v.client, k) && Less(k, v.client.lastProcessed)
    ensures Lost(w.client, v.client, Event(k, 0))
  {
  }
}
