/** What a tick of the timer does, and what the heartbeats do with it. */
module ConnectionTicks {
  import opened ConnectionCore
  import opened ConnectionLogic
  import opened ConnectionPaths
  import opened ConnectionRuns
  import opened Hashes
  import opened OperationBooks
  import opened Operations
  import opened OperationSettlement
  import opened Wrappers
  import O = OperationScheduling
  import OperationChecks
  import S = SubscriptionScheduling
  import SubscriptionOperations
  import SubscriptionResults

  // ---- Heartbeats ----

  /** The stage of the heartbeat is over. */
  predicate StageOver(c: Core, s: Settings, now: int)
    requires c.heartbeat.Some?
  {
    now - c.heartbeat.value.at >= if c.heartbeat.value.isIntervalStage then s.heartbeatInterval else s.heartbeatTimeout
  }

  /** No package has come during the stage. */
  predicate Quiet(c: Core)
    requires c.heartbeat.Some?
  {
    c.packageNumber == c.heartbeat.value.lastPackageNumber
  }

  /** The connection was asked for a heartbeat, and nothing has come of it in time. */
  predicate GivesUp(c: Core, s: Settings, now: int) {
    && c.connection.Some? && c.heartbeat.Some? && StageOver(c, s, now) && Quiet(c)
    && !c.heartbeat.value.isIntervalStage
  }

  /** What the heartbeats make of the handler's own state while they do not give the connection up. */
  ghost predicate Beats(c: Core, d: Core, s: Settings, now: int)
    requires c.connection.Some? && c.heartbeat.Some?
  {
    var beat := c.heartbeat.value;
    && d.state == c.state && d.phase == c.phase && d.connection == c.connection && d.emitted == c.emitted
    && if !StageOver(c, s, now) then d.heartbeat == c.heartbeat && d.sent == c.sent
       else if !Quiet(c) then d.heartbeat == Some(Heartbeat(None, c.packageNumber, true, now)) && d.sent == c.sent
       else
         && d.heartbeat == Some(Heartbeat(Some(c.nextId), c.packageNumber, false, now)) && d.nextId == c.nextId + 1
         && d.sent == c.sent + [AskHeartbeat(c.nextId, c.connection.value)]
  }

  /** From `c` to `d` the connection has been given up, to be tried again from `now` on. */
  ghost predicate Lost(c: Core, d: Core, now: int) {
    && d.state == Connecting && d.phase == Reconnecting && d.connection.None? && !d.wasConnected
    && d.reconn == Some(Reconnection(Tried(c), now)) && d.sent == c.sent
    && d.emitted == c.emitted + if c.wasConnected then [DisconnectedEvent] else []
  }

  lemma HeartbeatsAre(h: Handler, s: Settings, now: int)
    requires h.core.connection.Some? && h.core.heartbeat.Some? && h.core.state != Init && h.core.state != Closed
    ensures var r := ManageHeartbeats(h, s, now);
            && r.ops == h.ops && r.core.lastTimeouts == h.core.lastTimeouts
            && if GivesUp(h.core, s, now) then
                 Lost(h.core, r.core, now) && r.subs == S.PurgeSubscribedAndDropped(h.subs, h.core.connection.value)
               else
                 Beats(h.core, r.core, s, now) && r.subs == h.subs && r.core.reconn == h.core.reconn
                 && r.core.wasConnected == h.core.wasConnected
  {
    hide S.PurgeSubscribedAndDropped;
    assert h.core.emitted + [] == h.core.emitted;
  }

  /** While an authentication is in time, a tick goes on with the heartbeats and does nothing else. */
  lemma AuthenticatingTick(h: Handler, s: Settings, now: int)
    requires CoreOk(h.core, s) && h.core.state == Connecting && h.core.phase == Authentication
    ensures h.core.connection.Some? && h.core.auth.Some? && h.core.heartbeat.Some?
    ensures now - h.core.auth.value.at < s.operations.operationTimeout ==>
              var r := Handle(h, s, TimerTickMessage, now);
              && r.ops == h.ops
              && if GivesUp(h.core, s, now) then
                   Lost(h.core, r.core, now) && r.subs == S.PurgeSubscribedAndDropped(h.subs, h.core.connection.value)
                 else Beats(h.core, r.core, s, now) && r.subs == h.subs
  {
    hide History, S.PurgeSubscribedAndDropped, ManageHeartbeats, GoToConnectedState, Lost, Beats, GivesUp;
    HeartbeatsAre(h, s, now);
  }

  // ---- Connected ----

  /**
   * A tick of a connected handler. When a check is due, both managers make theirs, the count of reconnection attempts
   * starts again, and the next check is due a period later; otherwise they stay as they are. Then the heartbeats go on:
   * whatever else, they lose the connection if they give it up, and only then, and its confirmed subscriptions with it.
   */
  lemma ConnectedTick(h: Handler, s: Settings, now: int)
    requires CoreOk(h.core, s) && h.core.state == Connected
    ensures h.core.connection.Some? && h.core.heartbeat.Some?
    ensures var r, conn := Handle(h, s, TimerTickMessage, now), h.core.connection.value;
            var due := now - h.core.lastTimeouts >= s.operationTimeoutCheckPeriod;
            var subs := if due then S.CheckTimeoutsAndRetry(h.subs, s.operations, conn, now) else h.subs;
            var lost := GivesUp(h.core, s, now);
            && r.ops == (if due then O.CheckTimeoutsAndRetry(h.ops, s.operations, conn, now) else h.ops)
            && r.subs == (if lost then S.PurgeSubscribedAndDropped(subs, conn) else subs)
            && r.core.lastTimeouts == (if due then now else h.core.lastTimeouts)
            && Tried(r.core) == (if due then 0 else Tried(h.core))
            && (if lost then r.core.state == Connecting && r.core.phase == Reconnecting && r.core.connection.None?
                             && r.core.emitted == h.core.emitted + [DisconnectedEvent] && r.core.sent == h.core.sent
                else Beats(h.core, r.core, s, now))
  {
    hide History, S.PurgeSubscribedAndDropped, O.CheckTimeoutsAndRetry, S.CheckTimeoutsAndRetry, ManageHeartbeats,
      Beats, StageOver, Quiet;
    var reset := h.core.(reconn := Some(Reconnection(0, now)), resetAt := |h.core.emitted|);
    HeartbeatsAre(h, s, now);
    var checked := Handler(reset.(lastTimeouts := now),
                           O.CheckTimeoutsAndRetry(h.ops, s.operations, h.core.connection.value, now),
                           S.CheckTimeoutsAndRetry(h.subs, s.operations, h.core.connection.value, now));
    HeartbeatsAre(checked, s, now);
    SameBeats(h.core, checked.core, ManageHeartbeats(checked, s, now).core, s, now);
  }

  lemma SameBeats(c: Core, b: Core, d: Core, s: Settings, now: int)
    requires c.connection.Some? && c.heartbeat.Some?
    requires b == c.(reconn := b.reconn, resetAt := b.resetAt, lastTimeouts := b.lastTimeouts)
    ensures GivesUp(b, s, now) == GivesUp(c, s, now) && (Beats(b, d, s, now) ==> Beats(c, d, s, now))
  {
  }

  /**
   * A handler that becomes connected, by the answer to its identification or without one, makes both checks if they are
   * due, and leaves the managers alone if not.
   */
  lemma ChecksOnceUp(h: Handler, s: Settings, message: Message, now: int)
    requires CoreOk(h.core, s) && h.core.state == Connecting
    requires Handle(h, s, message, now).core.state == Connected
    ensures h.core.connection.Some?
    ensures var r, conn := Handle(h, s, message, now), h.core.connection.value;
            var due := now - h.core.lastTimeouts >= s.operationTimeoutCheckPeriod;
            && r.core.connection == h.core.connection
            && r.core.lastTimeouts == (if due then now else h.core.lastTimeouts)
            && r.ops == (if due then O.CheckTimeoutsAndRetry(h.ops, s.operations, conn, now) else h.ops)
            && r.subs == (if due then S.CheckTimeoutsAndRetry(h.subs, s.operations, conn, now) else h.subs)
  {
    hide History, Dispatch, ManageHeartbeats, O.CheckTimeoutsAndRetry, S.CheckTimeoutsAndRetry, S.TouchedAt, O.CleanUp,
      S.CleanUp, O.EnqueueOperation, O.ScheduleOperation, S.EnqueueSubscription, S.StartSubscription,
      S.PurgeSubscribedAndDropped, Refused, IdentifiedBy, AuthenticationExpired;
    ConnectsExact(h, s, message, now);
    UpBy(h, s, message, now);
  }

  lemma UpBy(h: Handler, s: Settings, message: Message, now: int)
    requires CoreOk(h.core, s) && h.core.state == Connecting
    requires IdentifiedBy(h.core, message) || AuthenticationExpired(h.core, s, message, now)
    ensures h.core.connection.Some?
    ensures exists c: Core :: c.connection == h.core.connection && c.lastTimeouts == h.core.lastTimeouts
                        && Handle(h, s, message, now) == GoToConnectedState(h.(core := c), s, now)
  {
    hide History, GoToConnectedState, Dispatch, ManageHeartbeats;
    if message.TimerTickMessage? {
      var c := Emit(h.core, AuthenticationFailed);
      assert Handle(h, s, message, now) == GoToConnectedState(h.(core := c), s, now);
    } else {
      var c := Counted(h.core);
      assert Handle(h, s, message, now) == GoToConnectedState(h.(core := c), s, now);
    }
  }

  /** Sent on this connection, and either without a timeout or not silent for too long. */
  predicate InTime(item: O.Item, s: Settings, conn: nat, now: int) {
    item.connectionId == Some(conn)
    && !(item.timeout > 0 && now - item.lastUpdated > s.operations.operationTimeout)
  }

  lemma {:induction false} KeptInTime(entries: seq<Entry<nat, O.Item>>, s: Settings, conn: nat, now: int)
    ensures var kept := OperationChecks.KeptEntries(entries, s.operations, conn, now);
            && (forall e :: e in kept <==> e in entries && InTime(e.value, s, conn, now))
  {
    if entries != [] {
      var front, last := entries[..|entries| - 1], entries[|entries| - 1];
      KeptInTime(front, s, conn, now);
      assert entries == front + [last];
    }
  }

  /**
   * After a check of the operations: those sent on the connection and still in time are where they were, every other
   * active one has just been sent on it, and nothing is left to retry, nor waits while there is room.
   */
  ghost predicate OperationsChecked(o: O.Ops, r: O.Ops, s: Settings, conn: nat, now: int) {
    && (forall e :: e in o.active.entries && InTime(e.value, s, conn, now) ==> e in r.active.entries)
    && (forall e :: e in r.active.entries ==>
          (e in o.active.entries && InTime(e.value, s, conn, now))
          || (e.value.connectionId == Some(conn) && e.value.lastUpdated == now))
    && r.retryPending == [] && (r.waiting == [] || |r.active.entries| >= s.operations.maxConcurrentItems)
  }

  lemma OperationsAreChecked(o: O.Ops, s: Settings, conn: nat, now: int)
    requires OperationBooks.Shape(o, s.operations)
    ensures OperationsChecked(o, O.CheckTimeoutsAndRetry(o, s.operations, conn, now), s, conn, now)
  {
    hide O.CheckTimeoutsAndRetry, OperationBooks.Shape, Pool, OperationChecks.Room, InTime, OperationChecks.KeptEntries;
    CheckSettles(o, s.operations, conn, now);
    KeptInTime(o.active.entries, s, conn, now);
    var r := O.CheckTimeoutsAndRetry(o, s.operations, conn, now);
    var kept := OperationChecks.KeptEntries(o.active.entries, s.operations, conn, now);
    forall e | e in r.active.entries
      ensures (e in o.active.entries && InTime(e.value, s, conn, now))
              || (e.value.connectionId == Some(conn) && e.value.lastUpdated == now)
    {
      var i :| 0 <= i < |r.active.entries| && r.active.entries[i] == e;
      if i < |kept| {
        assert e == kept[i];
      }
    }
  }

  /**
   * After a check of the subscriptions: those confirmed, and those asked for on the connection and still in time, are
   * as they were, every other one has been asked for again on it or given up, and nothing is left to ask for.
   */
  ghost predicate SubscriptionsChecked(m: S.Subs, r: S.Subs, s: Settings, conn: nat, now: int) {
    && (forall key :: Get(m.active.entries, key).Some? ==>
          var item := Get(m.active.entries, key).value;
          Get(r.active.entries, key)
          == if item.isSubscribed || (item.connectionId == Some(conn)
                                      && !SubscriptionResults.Silent(item, s.operations, conn, now)) then Some(item)
             else None)
    && (forall i :: 0 <= i < |r.active.entries| ==>
          r.active.entries[i] in m.active.entries
          || (r.active.entries[i].value.connectionId == Some(conn) && r.active.entries[i].value.lastUpdated == now
              && !r.active.entries[i].value.isSubscribed))
    && SubscriptionResults.BoundTo(r.active.entries, conn) && r.waiting == [] && r.retryPending == []
    && SubscriptionResults.LetGo(m.released, r.released, Items(m.active.entries),
                                 (x: S.SubItem) => SubscriptionResults.GivesUpOn(x, s.operations, conn, now),
                                 SubscriptionOperations.SubscribingError)
  }

  lemma SubscriptionsAreChecked(m: S.Subs, s: Settings, conn: nat, now: int)
    requires SubscriptionResults.Inv(m)
    ensures SubscriptionsChecked(m, S.CheckTimeoutsAndRetry(m, s.operations, conn, now), s, conn, now)
  {
    hide SubscriptionResults.Inv, SubscriptionResults.Tally, SubscriptionResults.BoundTo, SubscriptionResults.LetGo,
      Get, S.CheckTimeoutsAndRetry, SubscriptionResults.GivesUpOn;
    SubscriptionResults.CheckKeeps(m, s.operations, conn, now, 0);
    SubscriptionResults.GivesUpExact(m, s.operations, conn, now);
    SubscriptionResults.CheckRenews(m, s.operations, conn, now);
    forall key | Get(m.active.entries, key).Some?
      ensures var item := Get(m.active.entries, key).value;
              Get(S.CheckTimeoutsAndRetry(m, s.operations, conn, now).active.entries, key)
              == if item.isSubscribed || (item.connectionId == Some(conn)
                                          && !SubscriptionResults.Silent(item, s.operations, conn, now)) then Some(item)
                 else None
    {
      SubscriptionResults.CheckExact(m, s.operations, conn, now, key);
    }
  }

  /** The operations that a check calls back: silent where that is an error, or out of retries. */
  ghost predicate FateSealed(o: O.Ops, r: O.Ops, s: Settings, conn: nat, now: int) {
    forall i :: 0 <= i < |o.active.entries| ==>
      var item := o.active.entries[i].value;
      Calls(r, item.operation.id) == 1
      <==> !InTime(item, s, conn, now)
           && (O.LimitReached(item) || (item.connectionId == Some(conn) && s.operations.failOnNoServerResponse))
  }

  lemma FateIsSealed(o: O.Ops, s: Settings, conn: nat, now: int, book: map<nat, int>)
    requires OperationBooks.Sound(o, s.operations, book)
    ensures FateSealed(o, O.CheckTimeoutsAndRetry(o, s.operations, conn, now), s, conn, now)
  {
    hide OperationBooks.Sound, O.CheckTimeoutsAndRetry, Calls;
    forall i | 0 <= i < |o.active.entries|
      ensures var item := o.active.entries[i].value;
              Calls(O.CheckTimeoutsAndRetry(o, s.operations, conn, now), item.operation.id) == 1
              <==> !InTime(item, s, conn, now)
                   && (O.LimitReached(item) || (item.connectionId == Some(conn) && s.operations.failOnNoServerResponse))
    {
      CheckFate(o, s.operations, conn, now, i, book);
    }
  }

  lemma SoundShape(o: O.Ops, s: Settings, book: map<nat, int>)
    requires OperationBooks.Sound(o, s.operations, book)
    ensures OperationBooks.Shape(o, s.operations)
  {
  }

  /**
   * A tick of a connected handler with a check due looks after everybody. An operation stays as it is exactly if it is
   * in time; the others have just been sent on the connection, wait for room, or were called back, exactly when silent
   * where that is an error or out of retries. Subscriptions likewise. Only then may the heartbeats give up, which drops
   * the confirmed subscriptions and nobody else.
   */
  lemma TickSettles(h: Handler, s: Settings, now: int, book: map<nat, int>)
    requires CoreOk(h.core, s) && Managed(h, s, book) && h.core.state == Connected
    requires now - h.core.lastTimeouts >= s.operationTimeoutCheckPeriod
    ensures h.core.connection.Some?
    ensures var r, conn := Handle(h, s, TimerTickMessage, now), h.core.connection.value;
            && OperationsChecked(h.ops, r.ops, s, conn, now) && FateSealed(h.ops, r.ops, s, conn, now)
            && if GivesUp(h.core, s, now) then
                 exists m :: SubscriptionsChecked(h.subs, m, s, conn, now)
                             && r.subs == S.PurgeSubscribedAndDropped(m, conn)
               else SubscriptionsChecked(h.subs, r.subs, s, conn, now)
  {
    hide CoreOk, Handle, S.PurgeSubscribedAndDropped, O.CheckTimeoutsAndRetry, S.CheckTimeoutsAndRetry, GivesUp, Beats,
      OperationsChecked, SubscriptionsChecked, FateSealed, OperationBooks.Sound, SubscriptionResults.Inv;
    ConnectedTick(h, s, now);
    var conn := h.core.connection.value;
    SoundShape(h.ops, s, book);
    OperationsAreChecked(h.ops, s, conn, now);
    FateIsSealed(h.ops, s, conn, now, book);
    SubscriptionsAreChecked(h.subs, s, conn, now);
  }
}
