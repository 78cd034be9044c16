/** How a reconnection can lose an event, with a server and a handler that do nothing wrong. */
module CatchUpLoss {
  import opened Wrappers
  import opened Positions
  import opened CatchUp
  import opened CatchUpCoherence
  import opened CatchUpReconnections
  import opened CatchUpResults
  import opened CatchUpRuns

  // ---- Runs in which nothing goes wrong ----

  /**
   * A slice is empty only at the end of the log, and says exactly then that it is the last; the confirmation names the
   * last event; no handler fails, and nobody stops or drops the subscription.
   */
  ghost predicate Normal(w: World, a: Action) {
    match a
    case Append(_, _) => true
    case Confirm(till) => w.log != [] && till == w.log[|w.log| - 1].key
    case ToClient(ReadArrived(SliceRead(s))) =>
      (s.endOfStream <==> Idx(w.log, s.next) == |w.log|) && (s.events == [] ==> Read(w) == |w.log|)
    case ToClient(SliceContinues(throws)) => !throws
    case ToClient(HandlerSettled(fulfilled)) => fulfilled
    case ToClient(EventPushed(_)) => true
    case ToClient(LiveContinues(throws)) => !throws
    case ToClient(LiveSettled(fulfilled, throwsNext)) => fulfilled && !throwsNext
    case _ => false
  }

  ghost predicate NormalRun(w: World, actions: seq<Action>)
    decreases |actions|
  {
    actions == []
    || (Enabled(w, actions[0]) && Calm(w, actions[0]) && Normal(w, actions[0])
        && NormalRun(Step(w, actions[0]), actions[1..]))
  }

  lemma {:induction false} NormalIsCalm(w: World, actions: seq<Action>)
    requires NormalRun(w, actions)
    ensures CalmRun(w, actions)
    decreases |actions|
  {
    hide Step, Enabled, Calm, Normal;
    if actions != [] {
      NormalIsCalm(Step(w, actions[0]), actions[1..]);
    }
  }

  lemma {:induction false} RunAppend(w: World, a: seq<Action>, b: seq<Action>)
    requires NormalRun(w, a) && NormalRun(Exec(w, a), b)
    ensures NormalRun(w, a + b) && Exec(w, a + b) == Exec(Exec(w, a), b)
    decreases |a|
  {
    hide Step, Enabled, Calm, Normal;
    if a == [] {
      assert a + b == b;
    } else {
      assert (a + b)[0] == a[0] && (a + b)[1..] == a[1..] + b;
      RunAppend(Step(w, a[0]), a[1..], b);
    }
  }

  lemma RunCons(w: World, a: Action, rest: seq<Action>)
    requires Enabled(w, a) && Calm(w, a) && Normal(w, a) && NormalRun(Step(w, a), rest)
    ensures NormalRun(w, [a] + rest) && Exec(w, [a] + rest) == Exec(Step(w, a), rest)
  {
    hide Step, Enabled, Calm, Normal;
    assert ([a] + rest)[1..] == rest;
  }

  lemma NoRun(w: World)
    ensures NormalRun(w, []) && Exec(w, []) == w
  {
  }

  // ---- Lost events ----

  /** Between `c` and `d` the delivery cursor has passed the event without a call for it. */
  ghost predicate Lost(c: Client, d: Client, e: Event) {
    && Handles(c, e) && !Handles(d, e) && c.calls <= d.calls
    && forall i :: |c.calls| <= i < |d.calls| ==> d.calls[i].event != e
  }

  lemma TryKeepsLost(c: Client, d: Client, e: Event, x: Event, throws: bool)
    requires Lost(c, d, e)
    ensures Lost(c, TryProcess(d, x, throws), e)
  {
  }

  /** What is lost stays lost, whatever happens later, further reconnections included. */
  lemma {:induction false} LostForGood(c: Client, d: Client, e: Event, inputs: seq<Input>)
    requires Lost(c, d, e)
    ensures Lost(c, ReactAll(d, inputs), e)
    decreases |inputs|
  {
    hide React, TryProcess, Less;
    if inputs != [] {
      ReactCalls(d, inputs[0]);
      if Attempt(d, inputs[0]).Some? {
        TryKeepsLost(c, d, e, Attempt(d, inputs[0]).value, Throws(inputs[0]));
      }
      LostForGood(c, React(d, inputs[0]), e, inputs[1..]);
    }
  }

  // ---- The resumed run reads to the end of the log ----

  /** Everything but the place in the chain of reads and the deliveries. */
  ghost predicate OnlyRead(w: World, v: World) {
    var (c, d) := (w.client, v.client);
    && v.log == w.log && v.floor == w.floor && v.push == w.push && v.confirm == w.confirm
    && d.liveQueue == c.liveQueue && d.live == c.live && d.allowProcessing == c.allowProcessing
    && d.isProcessing == c.isProcessing && d.maxPushQueueSize == c.maxPushQueueSize
    && d.readBatchSize == c.readBatchSize && d.shouldStop == c.shouldStop && d.listeners == c.listeners
  }

  ghost predicate FirstReading(w: World) {
    && Coherent(w) && !w.client.shouldStop && w.client.readBatchSize > 0
    && match w.client.run
       case AwaitSlice(till) => till.None?
       case InSlice(_, s, till) => till.None? && (s.endOfStream <==> Idx(w.log, s.next) == |w.log|)
       case AwaitHandler(_, s, till) => till.None? && (s.endOfStream <==> Idx(w.log, s.next) == |w.log|)
       case _ => false
  }

  function SlicesAhead(w: World): nat {
    match w.client.run
    case AwaitSlice(_) => |w.log| - Read(w) + 1
    case InSlice(_, s, _) => if s.endOfStream then 0 else |w.log| - Idx(w.log, s.next) + 1
    case AwaitHandler(_, s, _) => if s.endOfStream then 0 else |w.log| - Idx(w.log, s.next) + 1
    case _ => 0
  }

  function EventsAhead(w: World): nat {
    match w.client.run
    case InSlice(rest, _, _) => 2 * |rest| + 1
    case AwaitHandler(rest, _, _) => 2 * |rest| + 2
    case _ => 0
  }

  /** The input a reading client waits for. */
  function NextRead(w: World): Input
    requires w.client.run.AwaitSlice? || w.client.run.InSlice? || w.client.run.AwaitHandler?
  {
    match w.client.run
    case AwaitSlice(_) => ReadArrived(SliceRead(NextSlice(w)))
    case InSlice(_, _, _) => SliceContinues(false)
    case AwaitHandler(_, _, _) => HandlerSettled(true)
  }

  /** A batch of what is left, with the next cursor at the event behind it or at the end. */
  function NextSlice(w: World): Slice {
    var i := Read(w);
    if |w.log| - i <= w.client.readBatchSize then Slice(w.log[i..], w.floor, true)
    else
      var j := i + w.client.readBatchSize;
      Slice(w.log[i..j], w.log[j].key, false)
  }

  lemma IdxAt(log: seq<Event>, j: nat)
    requires Sorted(log) && j < |log|
    ensures Idx(log, log[j].key) == j
  {
    hide Less;
    IdxSplits(log, log[j].key);
    KeyNotLess(log[j].key);
  }

  lemma KeyNotLess(key: Key)
    ensures !Less(key, key)
  {
  }

  lemma NextSliceOk(w: World)
    requires ServerOk(w) && w.client.readBatchSize > 0
    ensures var s := NextSlice(w);
            && SliceOk(w, s, None) && (s.endOfStream <==> Idx(w.log, s.next) == |w.log|)
            && (s.events == [] ==> Read(w) == |w.log|) && (!s.endOfStream ==> Idx(w.log, s.next) > Read(w))
  {
    hide Less, Compare, Idx;
    var i := Read(w);
    if |w.log| - i <= w.client.readBatchSize {
      FloorIsEnd(w);
    } else {
      IdxAt(w.log, i + w.client.readBatchSize);
      BeforeFloor(w, i + w.client.readBatchSize);
    }
  }

  lemma FloorIsEnd(w: World)
    requires ServerOk(w)
    ensures Idx(w.log, w.floor) == |w.log| && !Less(w.floor, w.floor)
  {
  }

  lemma BeforeFloor(w: World, j: nat)
    requires ServerOk(w) && j < |w.log|
    ensures !Less(w.floor, w.log[j].key)
  {
  }

  /** Still in the first read and closer to its end, or at the subscribe request. */
  ghost predicate Nearer(w: World, v: World) {
    if v.client.run.Subscribing? then Coherent(v) && Read(v) == |v.log|
    else
      FirstReading(v)
      && (SlicesAhead(v) < SlicesAhead(w)
          || (SlicesAhead(v) == SlicesAhead(w) && EventsAhead(v) < EventsAhead(w)))
  }

  /** The input a reading client waits for, and what it brings. */
  ghost predicate ReadsNext(w: World, i: Input) {
    var a := ToClient(i);
    Enabled(w, a) && Calm(w, a) && Normal(w, a) && OnlyRead(w, Step(w, a)) && Nearer(w, Step(w, a))
  }

  lemma TakesSlice(w: World)
    requires FirstReading(w) && w.client.run.AwaitSlice?
    ensures ReadsNext(w, ReadArrived(SliceRead(NextSlice(w))))
  {
    hide Less, Compare, Idx, SliceOk, React, NextSlice, Coherent;
    ServerOf(w);
    NextSliceOk(w);
    CoherentStep(w, ToClient(ReadArrived(SliceRead(NextSlice(w)))));
    ReadArrivedRun(w.client, NextSlice(w));
  }

  lemma LeavesSlice(w: World)
    requires FirstReading(w) && w.client.run.InSlice? && w.client.run.rest == []
    ensures ReadsNext(w, SliceContinues(false))
  {
    hide Less, Compare, Idx, SliceOk, React, NextSlice, Coherent;
    CoherentStep(w, ToClient(SliceContinues(false)));
    SliceLeft(w.client);
  }

  lemma TriesEvent(w: World)
    requires FirstReading(w) && w.client.run.InSlice? && w.client.run.rest != []
    ensures ReadsNext(w, SliceContinues(false))
  {
    hide Less, Compare, Idx, SliceOk, React, NextSlice, Coherent, Handles;
    CoherentStep(w, ToClient(SliceContinues(false)));
    NextTried(w.client);
  }

  lemma LeavesHandler(w: World)
    requires FirstReading(w) && w.client.run.AwaitHandler?
    ensures ReadsNext(w, HandlerSettled(true))
  {
    hide Less, Compare, Idx, SliceOk, React, NextSlice, Coherent;
    CoherentStep(w, ToClient(HandlerSettled(true)));
    HandlerLeft(w.client);
  }

  /** One input further. */
  lemma ReadNext(w: World)
    requires FirstReading(w)
    ensures ReadsNext(w, NextRead(w))
  {
    hide ReadsNext, Idx, NextSlice, Coherent;
    match w.client.run
    case AwaitSlice(_) => TakesSlice(w);
    case InSlice(rest, _, _) => if rest == [] { LeavesSlice(w); } else { TriesEvent(w); }
    case AwaitHandler(_, _, _) => LeavesHandler(w);
  }

  lemma ServerOf(w: World)
    requires Coherent(w)
    ensures ServerOk(w)
  {
    hide ServerOk, SliceTail, QueueInLog;
  }

  lemma SliceLeft(c: Client)
    requires c.run.InSlice? && c.run.rest == [] && c.run.till.None? && !c.shouldStop
    ensures React(c, SliceContinues(false))
            == c.(nextRead := c.run.slice.next,
                run := if c.run.slice.endOfStream then Subscribing else AwaitSlice(None))
  {
    hide EndRun;
  }

  lemma NextTried(c: Client)
    requires c.run.InSlice? && c.run.rest != []
    ensures var (d, e) := (React(c, SliceContinues(false)), c.run.rest[0]);
            d == if Handles(c, e) then
                   c.(calls := c.calls + [Call(e, true)], lastProcessed := e.key,
                      run := AwaitHandler(c.run.rest[1..], c.run.slice, c.run.till))
                 else c.(run := InSlice(c.run.rest[1..], c.run.slice, c.run.till))
  {
    hide Less;
  }

  lemma HandlerLeft(c: Client)
    requires c.run.AwaitHandler?
    ensures React(c, HandlerSettled(true)) == c.(run := InSlice(c.run.rest, c.run.slice, c.run.till))
  {
  }

  predicate ReadsOn(a: Action) {
    a.ToClient? && (a.input.ReadArrived? || a.input.SliceContinues? || a.input.HandlerSettled?)
  }

  lemma {:induction false} ReadToEnd(w: World) returns (actions: seq<Action>)
    requires FirstReading(w)
    ensures NormalRun(w, actions) && forall i :: 0 <= i < |actions| ==> ReadsOn(actions[i])
    ensures var v := Exec(w, actions);
            OnlyRead(w, v) && Coherent(v) && v.client.run.Subscribing? && Read(v) == |v.log|
    decreases SlicesAhead(w), EventsAhead(w)
  {
    hide Coherent, Step, Enabled, Calm, Normal, Idx, SlicesAhead, EventsAhead;
    ReadNext(w);
    var a := ToClient(NextRead(w));
    var v := Step(w, a);
    if v.client.run.Subscribing? {
      NoRun(v);
      RunCons(w, a, []);
      actions := [a] + [];
    } else {
      var rest := ReadToEnd(v);
      RunCons(w, a, rest);
      actions := [a] + rest;
    }
  }

  lemma {:induction false} ReadingInTime(w: World, actions: seq<Action>)
    requires forall i :: 0 <= i < |actions| ==> ReadsOn(actions[i])
    ensures TurnsInTime(w, false, actions)
    decreases |actions|
  {
    hide Step;
    if actions != [] {
      assert ReadsOn(actions[0]);
      var v := Step(w, actions[0]);
      assert forall i :: 0 <= i < |actions[1..]| ==> actions[1..][i] == actions[i + 1];
      ReadingInTime(v, actions[1..]);
      if v.client.listeners > 0 {
        InTimeOnceLive(v, actions[1..]);
      }
    }
  }

  /** At the subscribe request the whole log has been handed over. */
  lemma ReadsEverything(w: World, actions: seq<Action>)
    requires Beginning(w) && NormalRun(w, actions) && forall i :: 0 <= i < |actions| ==> ReadsOn(actions[i])
    requires var v := Exec(w, actions); Coherent(v) && v.client.run.Subscribing? && Read(v) == |v.log|
    ensures var (v, c0, p0) := (Exec(w, actions), |w.client.calls|, Processed(w));
            && Processed(v) == |v.log| && c0 <= |v.client.calls| && p0 + |v.client.calls| - c0 == |v.log|
            && CallsAre(v.log, v.client.calls, c0, p0, |v.log|) && v.client.calls[..c0] == w.client.calls
  {
    hide Beginning, Step, Inv, Reading, Serving, Idx, IdxAfter, Less, CallsAre, FlagsOk;
    var c0, p0 := |w.client.calls|, Processed(w);
    NormalIsCalm(w, actions);
    ReadingInTime(w, actions);
    BeginningReads(w);
    var reading, n, f := ReadingExec(w, actions, |w.client.liveQueue|, c0, p0, 0, |w.log|);
    ExecKeepsCalls(w, actions);
    var v := Exec(w, actions);
    ProcessedAll(v);
    if reading {
      ReadingCalls(v, n, c0, p0, f, |w.log|);
    } else {
      ServingIdle(v, n, c0, p0, f);
    }
  }

  lemma ProcessedAll(v: World)
    requires Coherent(v) && Read(v) == |v.log|
    ensures Processed(v) == |v.log|
  {
    hide Idx, IdxAfter, Less;
  }

  lemma ReadingCalls(v: World, n: nat, c0: nat, p0: nat, f: nat, b: nat)
    requires Reading(v, n, c0, p0, f, b) && v.client.run.Subscribing?
    ensures c0 <= |v.client.calls| && p0 + |v.client.calls| - c0 == Processed(v)
    ensures CallsAre(v.log, v.client.calls, c0, p0, Processed(v))
  {
    hide CallsAre, ServerOk, IdxAfter, Idx, EventsIn, Leftover;
    LeftoverBound(v.client.liveQueue, n, v.log, b);
  }

  // ---- The live queue overtakes the second read ----

  /** The queue has room for one more event, now or after the turn that is due. */
  predicate RoomForPush(c: Client) {
    && 0 < c.maxPushQueueSize && |c.liveQueue| <= c.maxPushQueueSize
    && (c.live.Off? ==> |c.liveQueue| < c.maxPushQueueSize)
  }

  /**
   * The first `n` items of the queue will be passed over, the one behind them, if any, is beyond `k`, and the server
   * has pushed all it has.
   */
  ghost predicate Overtaking(w: World, n: nat, k: Key) {
    var c := w.client;
    && FlagsOk(c) && c.allowProcessing && PassedOver(c, n) && RoomForPush(c)
    && (n < |c.liveQueue| ==>
          c.liveQueue[n].Pushed? && Less(k, c.liveQueue[n].event.key) && Handles(c, c.liveQueue[n].event))
    && w.push == Some(|w.log|) && Less(k, w.floor) && Less(c.lastProcessed, w.floor)
  }

  /** The first key at or above `floor` that the server can use as a confirmation point for $all, and a key above it. */
  function Fresh(floor: Key): Key {
    match floor
    case EventNumber(_) => floor
    case AtPosition(p) =>
      var m := (if p.commitPosition > p.preparePosition then p.commitPosition else p.preparePosition) + 1;
      AtPosition(Position(m, m))
  }

  function Above(key: Key): Key {
    match key
    case EventNumber(n) => EventNumber(n + 1)
    case AtPosition(p) => AtPosition(Position(p.commitPosition + 1, p.commitPosition + 1))
  }

  lemma FreshKeys(floor: Key)
    ensures !Less(Fresh(floor), floor) && Less(Fresh(floor), Above(Fresh(floor)))
    ensures !Less(floor, floor) && Less(floor, Above(floor))
  {
  }

  lemma LessTrans(a: Key, b: Key, c: Key)
    ensures Less(a, b) && (Less(b, c) || !Less(c, b)) ==> Less(a, c)
  {
  }

  /** One more event, appended and pushed at once, wakes the queue up. */
  lemma PushAhead(w: World, n: nat, k: Key)
    requires Overtaking(w, n, k) && w.client.live.Off?
    ensures var (a, b) := (Append(Event(w.floor, 0), Above(w.floor)), ToClient(EventPushed(Event(w.floor, 0))));
            var v := Step(Step(w, a), b);
            && Enabled(w, a) && Calm(w, a) && Normal(w, a)
            && Enabled(Step(w, a), b) && Calm(Step(w, a), b) && Normal(Step(w, a), b)
            && Overtaking(v, n, k) && v.client.live.Scheduled? && n < |v.client.liveQueue|
            && v.log == w.log + [Event(w.floor, 0)] && v.client.calls == w.client.calls
  {
    hide Less, PassedOver, FlagsOk;
    var c, e := w.client, Event(w.floor, 0);
    PassedOverBound(c, n);
    FreshKeys(w.floor);
    LessTrans(k, w.floor, Above(w.floor));
    LessTrans(c.lastProcessed, w.floor, Above(w.floor));
    FlagsOff(c);
    PushedToIdle(c, e);
    PushFlags(c, e);
    var d := React(c, EventPushed(e));
    assert d.liveQueue[..n] == c.liveQueue[..n];
    PassedOverKept(c, d, n);
  }

  lemma FlagsOff(c: Client)
    requires FlagsOk(c)
    ensures c.isProcessing <==> !c.live.Off?
  {
  }

  lemma PushedToIdle(c: Client, e: Event)
    requires c.allowProcessing && !c.isProcessing && |c.liveQueue| < c.maxPushQueueSize
    ensures React(c, EventPushed(e))
            == c.(liveQueue := c.liveQueue + [Pushed(e)], isProcessing := true, live := Scheduled)
  {
  }

  /** The turn the live queue waits for. */
  function NextTurn(c: Client): Input {
    if c.live.Scheduled? then LiveContinues(false) else LiveSettled(true, false)
  }

  lemma TurnTaken(c: Client)
    requires !c.live.Off?
    ensures React(c, NextTurn(c)) == ProcessLiveQueue(c, false)
  {
    hide ProcessLiveQueue;
  }

  /** A turn that meets an old item, or an empty queue. */
  lemma TurnAhead(w: World, n: nat, k: Key)
    requires Overtaking(w, n, k) && !w.client.live.Off? && (n > 0 || w.client.liveQueue == [])
    ensures var v := w.(client := ProcessLiveQueue(w.client, false));
            && Overtaking(v, if n > 0 then n - 1 else 0, k) && v.client.calls == w.client.calls
            && (n == 0 ==> v.client.live.Off?)
  {
    hide Less, PassedOver, FlagsOk, ProcessDropMarker, ProcessPushed;
    var c := w.client;
    PassedOverBound(c, n);
    LiveFlags(c, false);
    var d := ProcessLiveQueue(c, false);
    if n > 0 {
      OldTurn(c, n, false);
      PassedOverShift(c, d, n);
    } else {
      NonePassedOver(d);
    }
  }

  lemma PassedOverShift(c: Client, d: Client, n: nat)
    requires PassedOver(c, n) && n > 0 && d.lastProcessed == c.lastProcessed && d.liveQueue == c.liveQueue[1..]
    ensures PassedOver(d, n - 1)
  {
    hide Less;
    assert forall i :: 0 <= i < n - 1 ==> d.liveQueue[i] == c.liveQueue[i + 1];
  }

  lemma TurnHandles(c: Client)
    requires FrontEvent(c.liveQueue).Some? && Handles(c, c.liveQueue[0].event)
    ensures var (d, e) := (ProcessLiveQueue(c, false), c.liveQueue[0].event);
            d.calls == c.calls + [Call(e, true)] && d.lastProcessed == e.key
  {
    hide Less;
  }

  function TurnsAhead(w: World, n: nat): nat {
    if w.client.live.Off? then 1 else if n < |w.client.liveQueue| then 0 else 2
  }

  /** Sooner or later a turn hands over an event beyond `k`. */
  lemma {:induction false} Overtakes(w: World, n: nat, k: Key) returns (actions: seq<Action>, e: Event)
    requires Overtaking(w, n, k)
    ensures NormalRun(w, actions)
    ensures var v := Exec(w, actions);
            && v.client.calls == w.client.calls + [Call(e, true)] && v.client.lastProcessed == e.key
            && Less(k, e.key) && w.log <= v.log
    decreases n, TurnsAhead(w, n)
  {
    hide Less, PassedOver, FlagsOk, ProcessLiveQueue, React, Handles;
    PassedOverBound(w.client, n);
    if w.client.live.Off? {
      var a, b := Append(Event(w.floor, 0), Above(w.floor)), ToClient(EventPushed(Event(w.floor, 0)));
      PushAhead(w, n, k);
      var rest;
      rest, e := Overtakes(Step(Step(w, a), b), n, k);
      RunCons(Step(w, a), b, rest);
      RunCons(w, a, [b] + rest);
      actions := [a] + ([b] + rest);
    } else {
      var a := ToClient(NextTurn(w.client));
      TurnTaken(w.client);
      if n > 0 || w.client.liveQueue == [] {
        TurnAhead(w, n, k);
        var rest;
        rest, e := Overtakes(Step(w, a), if n > 0 then n - 1 else 0, k);
        RunCons(w, a, rest);
        actions := [a] + rest;
      } else {
        e := w.client.liveQueue[0].event;
        TurnHandles(w.client);
        NoRun(Step(w, a));
        RunCons(w, a, []);
        actions := [a] + [];
      }
    }
  }

  // ---- Main results ----

  /** With everything handed over, all that is queued will be passed over. */
  lemma AllPassedOver(w: World)
    requires Coherent(w) && Processed(w) == |w.log|
    ensures PassedOver(w.client, |w.client.liveQueue|)
  {
    hide Less, Idx, IdxAfter, SliceTail;
    IdxAfterSplits(w.log, w.client.lastProcessed);
    var c := w.client;
    forall i | 0 <= i < |c.liveQueue| && c.liveQueue[i].Pushed? ensures !Handles(c, c.liveQueue[i].event) {
      var j :| 0 <= j < |w.log| && w.log[j] == c.liveQueue[i].event;
    }
  }

  lemma LogUpTo(w: World, e: Event)
    requires ServerOk(w) && !Less(e.key, w.floor)
    ensures ConfirmOk(w.log + [e], e.key) && forall j :: 0 <= j < |w.log| ==> w.log[j] != e
  {
    forall j | 0 <= j < |w.log| + 1
      ensures Compare((w.log + [e])[j].key, e.key) <= 0 && (j < |w.log| ==> w.log[j] != e)
    {
      if j < |w.log| { assert Less(w.log[j].key, w.floor); }
    }
  }

  lemma BeyondProcessed(w: World, key: Key)
    requires ServerOk(w) && !Less(key, w.floor)
    ensures Less(w.client.lastProcessed, key)
  {
  }

  /** The state in which the queue starts to overtake: an event was appended and confirmed before it could be read. */
  lemma OvertakingStarts(w: World, k: Key, floor: Key)
    requires Coherent(w) && Processed(w) == |w.log| && w.client.allowProcessing && w.client.run.Subscribing?
    requires RoomForPush(w.client) && w.push.None? && w.confirm.None?
    requires !Less(k, w.floor) && Less(k, floor)
    ensures var (a, b) := (Append(Event(k, 0), floor), Confirm(k));
            && Enabled(w, a) && Calm(w, a) && Normal(w, a)
            && Enabled(Step(w, a), b) && Calm(Step(w, a), b) && Normal(Step(w, a), b)
            && Overtaking(Step(Step(w, a), b), |w.client.liveQueue|, k)
  {
    hide Less, PassedOver, FlagsOk, CursorsOk, ConfirmOk;
    ServerOf(w);
    AllPassedOver(w);
    LogUpTo(w, Event(k, 0));
    BeyondProcessed(w, k);
    LessTrans(w.client.lastProcessed, k, floor);
  }

  /** The event at the end of the old log is passed by: the calls were for the events before it and one behind it. */
  lemma LostHere(w: World, u: World, v: World, k: Key, e: Event, p0: nat)
    requires ServerOk(u) && !Less(k, u.floor) && Less(w.client.lastProcessed, k)
    requires w.client.calls <= u.client.calls
    requires CallsAre(u.log, u.client.calls, |w.client.calls|, p0, |u.log|)
    requires v.client.calls == u.client.calls + [Call(e, true)] && v.client.lastProcessed == e.key && Less(k, e.key)
    requires u.log + [Event(k, 0)] <= v.log && p0 == Processed(w)
    ensures Lost(w.client, v.client, Event(k, 0)) && Event(k, 0) in v.log && !GapFree(w, v)
  {
    hide IdxAfter;
    var lost := Event(k, 0);
    LogUpTo(u, lost);
    assert v.log[|u.log|] == lost;
    assert e != lost;
    forall i | |w.client.calls| <= i < |v.client.calls| ensures v.client.calls[i].event != lost {
      if i < |u.client.calls| {
        assert u.client.calls[i].event == u.log[p0 + i - |w.client.calls|];
      }
    }
    assert v.client.calls[|u.client.calls|].event == e;
  }

  /**
   * A run that begins while live processing is still allowed can lose an event for good: appended and confirmed before
   * the first read has seen it, it is overtaken by a later event that is pushed and handled before the second read
   * comes to it. Reads, confirmation and pushes are as they should be, and every handler call succeeds.
   */
  lemma ResumeCanLose(w: World) returns (actions: seq<Action>, lost: Event)
    requires Beginning(w) && w.client.allowProcessing && !w.client.shouldStop
    requires 0 < w.client.readBatchSize && RoomForPush(w.client)
    ensures NormalRun(w, actions)
    ensures var v := Exec(w, actions); lost in v.log && Lost(w.client, v.client, lost) && !GapFree(w, v)
  {
    hide Coherent, Step, Enabled, Calm, Normal, Less, Idx, IdxAfter, Fresh, Above, Overtaking, Lost, GapFree, CallsAre;
    var first := ReadToEnd(w);
    var u := Exec(w, first);
    ReadsEverything(w, first);
    ServerOf(u);
    ServerOf(w);
    FreshKeys(w.floor);
    var k := Fresh(w.floor);
    var a, b := Append(Event(k, 0), Above(k)), Confirm(k);
    OvertakingStarts(u, k, Above(k));
    var rest, e := Overtakes(Step(Step(u, a), b), |u.client.liveQueue|, k);
    RunCons(Step(u, a), b, rest);
    RunCons(u, a, [b] + rest);
    RunAppend(w, first, [a] + ([b] + rest));
    actions, lost := first + ([a] + ([b] + rest)), Event(k, 0);
    AppendedLog(u, a, b);
    BeyondProcessed(w, k);
    LostHere(w, u, Exec(w, actions), k, e, Processed(w));
  }

  lemma AppendedLog(u: World, a: Action, b: Action)
    requires a.Append? && b.Confirm?
    ensures Step(Step(u, a), b).log == u.log + [a.event] && Step(Step(u, a), b).client == u.client
  {
  }

  /**
   * Every reconnection of a client that was live can lose an event, wherever the last session stopped and whatever it
   * left in the queue, as long as there is room for one push.
   */
  lemma ReconnectionCanLose(w: World) returns (actions: seq<Action>, lost: Event)
    requires Coherent(w) && Enabled(w, ToClient(Reconnected)) && w.client.listeners > 0
    requires 0 < w.client.readBatchSize && RoomForPush(w.client)
    ensures var v := Step(w, ToClient(Reconnected));
            && Beginning(v) && v.client.allowProcessing && NormalRun(v, actions)
            && lost in Exec(v, actions).log && Lost(v.client, Exec(v, actions).client, lost)
            && !GapFree(v, Exec(v, actions))
  {
    hide CursorsOk, NormalRun, Exec, Lost, GapFree;
    CoherentStep(w, ToClient(Reconnected));
    actions, lost := ResumeCanLose(Step(w, ToClient(Reconnected)));
  }

  /**
   * A run keeps the promise of gap-free delivery, in every continuation without overflow, exactly when live processing
   * was not already allowed as it began. It never is in a first run, and always after a reconnection.
   */
  lemma GapFreeExact(w: World)
    requires Beginning(w) && !w.client.shouldStop
    requires 0 < w.client.readBatchSize && RoomForPush(w.client)
    ensures (forall actions :: CalmRun(w, actions) ==> GapFree(w, Exec(w, actions))) <==> !w.client.allowProcessing
  {
    hide Coherent, CalmRun, NormalRun, GapFree, Exec, TurnsInTime, Lost;
    if w.client.allowProcessing {
      var actions, lost := ResumeCanLose(w);
      NormalIsCalm(w, actions);
    } else {
      forall actions | CalmRun(w, actions)
        ensures GapFree(w, Exec(w, actions))
      {
        FirstRunIsInTime(w, actions);
        RunInTimeIsGapFree(w, actions);
      }
    }
  }

  lemma PossibleCons(w: World, a: Action, v: World, rest: seq<Action>)
    requires Enabled(w, a) && v == Step(w, a) && Possible(v, rest)
    ensures Possible(w, [a] + rest) && Exec(w, [a] + rest) == Exec(v, rest)
  {
    hide Enabled, Step;
    assert ([a] + rest)[1..] == rest;
  }

  /** A live client loses the connection, and the drop of the server subscription tells it so. */
  lemma LosesConnection(w: World) returns (actions: seq<Action>)
    requires w.client.allowProcessing && w.client.live.Off? && !w.client.isProcessing && w.client.liveQueue == []
    requires w.client.dropData.None? && w.push.Some?
    ensures var v := Exec(w, actions);
            && Possible(w, actions) && v.push.None? && v.client.listeners == w.client.listeners
            && v.client.readBatchSize == w.client.readBatchSize && v.client.liveQueue == []
            && v.client.maxPushQueueSize == w.client.maxPushQueueSize
  {
    hide Exec, Possible, ProcessDropMarker, DropSubscription;
    var c, told := w.client, ServerDropped(ByServer(0));
    var w1 := w.(push := None);
    var d := c.(dropData := Some(ByServer(0)), liveQueue := [DropMarker], isProcessing := true, live := Scheduled);
    var w2 := w1.(client := d);
    MarkerLeft(d);
    var w3 := w1.(client := React(d, LiveContinues(false)));
    NothingDone(w3);
    PossibleCons(w2, ToClient(LiveContinues(false)), w3, []);
    actions := [ToClient(LiveContinues(false))] + [];
    PossibleCons(w1, ToClient(told), w2, actions);
    actions := [ToClient(told)] + actions;
    PossibleCons(w, ConnectionLost, w1, actions);
    actions := [ConnectionLost] + actions;
  }

  lemma MarkerLeft(c: Client)
    requires c.live.Scheduled? && c.liveQueue == [DropMarker]
    ensures var d := React(c, LiveContinues(false));
            && d.liveQueue == [] && d.listeners == c.listeners && d.readBatchSize == c.readBatchSize
            && d.maxPushQueueSize == c.maxPushQueueSize
  {
  }

  /** A second read of an empty stream that goes live, empties its queue and loses the connection. */
  lemma LiveAndLost(w: World, till: Key) returns (actions: seq<Action>)
    requires w.client == NewClient(false, None).(subscribed := true, run := AwaitSlice(Some(till)))
    requires till == EventNumber(-1) && w.log == [] && w.floor == EventNumber(0) && w.push == Some(0)
    ensures var v := Exec(w, actions);
            && Possible(w, actions) && v.push.None? && v.client.listeners > 0 && 0 < v.client.readBatchSize
            && |v.client.liveQueue| < v.client.maxPushQueueSize
  {
    hide Exec, Possible;
    var c, s := w.client, Slice([], EventNumber(0), true);
    var w1 := w.(client := c.(run := InSlice([], s, Some(till))));
    var d := c.(run := Idle, listeners := 1, allowProcessing := true);
    var w2 := w.(client := d.(isProcessing := true, live := Scheduled));
    var w3 := w.(client := d);
    actions := LosesConnection(w3);
    PossibleCons(w2, ToClient(LiveContinues(false)), w3, actions);
    actions := [ToClient(LiveContinues(false))] + actions;
    PossibleCons(w1, ToClient(SliceContinues(false)), w2, actions);
    actions := [ToClient(SliceContinues(false))] + actions;
    PossibleCons(w, ToClient(ReadArrived(SliceRead(s))), w1, actions);
    actions := [ToClient(ReadArrived(SliceRead(s)))] + actions;
  }

  /** The first session of a subscription to an empty stream, up to the loss of its connection. */
  lemma FirstSession() returns (actions: seq<Action>)
    ensures var w := World(RunSubscription(NewClient(false, None)), [], EventNumber(0), None, None);
            var v := Exec(w, actions);
            && Possible(w, actions) && v.push.None? && v.client.listeners > 0 && 0 < v.client.readBatchSize
            && |v.client.liveQueue| < v.client.maxPushQueueSize
  {
    hide Exec, Possible;
    var c := RunSubscription(NewClient(false, None));
    var s, till := Slice([], EventNumber(0), true), EventNumber(-1);
    var w0 := World(c, [], EventNumber(0), None, None);
    var w1 := w0.(client := c.(run := InSlice([], s, None)));
    var w2 := w0.(client := c.(run := Subscribing));
    var w3 := w2.(push := Some(0), confirm := Some(till));
    var w4 := w3.(client := c.(subscribed := true, run := AwaitSlice(Some(till))), confirm := None);
    actions := LiveAndLost(w4, till);
    PossibleCons(w3, ToClient(SubscribeConfirmed(till)), w4, actions);
    actions := [ToClient(SubscribeConfirmed(till))] + actions;
    PossibleCons(w2, Confirm(till), w3, actions);
    actions := [Confirm(till)] + actions;
    PossibleCons(w1, ToClient(SliceContinues(false)), w2, actions);
    actions := [ToClient(SliceContinues(false))] + actions;
    PossibleCons(w0, ToClient(ReadArrived(SliceRead(s))), w1, actions);
    actions := [ToClient(ReadArrived(SliceRead(s)))] + actions;
  }

  lemma NothingDone(w: World)
    ensures Possible(w, []) && Exec(w, []) == w
  {
  }

  /**
   * A whole run, from a new subscription over a session that goes live and a reconnection to an event lost for good.
   */
  lemma WholeRunLoses() returns (before: seq<Action>, after: seq<Action>, lost: Event)
    ensures var w := World(RunSubscription(NewClient(false, None)), [], EventNumber(0), None, None);
            var v := Step(Exec(w, before), ToClient(Reconnected));
            && Possible(w, before) && Enabled(Exec(w, before), ToClient(Reconnected)) && Beginning(v)
            && NormalRun(v, after) && lost in Exec(v, after).log && Lost(v.client, Exec(v, after).client, lost)
  {
    hide Exec, Possible, Coherent, Beginning, NormalRun, Lost, GapFree, Less;
    var w := World(RunSubscription(NewClient(false, None)), [], EventNumber(0), None, None);
    before := FirstSession();
    NewSubscriptionCoheres(false, None, [], EventNumber(0), before);
    after, lost := ReconnectionCanLose(Exec(w, before));
  }
}
