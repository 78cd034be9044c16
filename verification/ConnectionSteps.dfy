/** What the messages of the handler do, one by one: who is told, what is sent, and what stays as it is. */
module ConnectionSteps {
  import opened ConnectionCore
  import opened ConnectionLogic
  import opened ConnectionPaths
  import opened Hashes
  import opened Operations
  import opened Wrappers
  import O = OperationScheduling
  import OperationBooks
  import OperationChecks
  import S = SubscriptionScheduling
  import SubscriptionOperations
  import SubscriptionResults

  /** What an abandoned connection still reports is ignored. */
  lemma StaleIgnored(h: Handler, s: Settings, message: Message, now: int)
    requires CoreOk(h.core, s)
    requires match message
             case TcpConnectionEstablishedMessage(conn) => h.core.connection != Some(conn)
             case TcpConnectionErrorMessage(conn, _) => h.core.connection != Some(conn)
             case TcpConnectionClosedMessage(conn) => h.core.connection != Some(conn)
             case HandleTcpPackageMessage(conn, _, _) => h.core.connection != Some(conn)
             case _ => false
    ensures Handle(h, s, message, now) == h
  {
    hide History, HandlePackage, CloseConnection, S.PurgeSubscribedAndDropped;
  }

  /**
   * A heartbeat asked for is answered, on the connection and with the id it was asked with, and one that answers the
   * handler's own is reported; nothing else happens.
   */
  lemma HeartbeatExact(h: Handler, s: Settings, conn: nat, correlation: Correlation, content: Content, now: int)
    requires CoreOk(h.core, s) && h.core.connection == Some(conn)
    requires content == HeartbeatRequest || content == HeartbeatResponse
    ensures var r, c := Handle(h, s, HandleTcpPackageMessage(conn, correlation, content), now), h.core;
            var expected := c.heartbeat.Some? && c.heartbeat.value.id.Some?
                && correlation == ForHandler(c.heartbeat.value.id.value);
            r == h.(core := c.(
                packageNumber := c.packageNumber + 1,
                sent := c.sent + (if content == HeartbeatRequest then [AnswerHeartbeat(correlation, conn)] else []),
                emitted := c.emitted + (if content == HeartbeatResponse && expected then [HeartbeatInfo] else [])))
  {
    hide History, HandleCounted;
    assert h.core.sent + [] == h.core.sent && h.core.emitted + [] == h.core.emitted;
  }

  /** A package that is for nobody is counted, and that is all. */
  lemma UnmappedIgnored(h: Handler, s: Settings, conn: nat, correlation: Correlation, content: Content, now: int)
    requires CoreOk(h.core, s) && h.core.connection == Some(conn) && !IsHeartbeat(content)
    requires match correlation
             case ForOperation(id) => Get(h.ops.active.entries, id).None?
             case ForSubscription(id) => Get(h.subs.active.entries, id).None?
             case Foreign(_) => true
             case _ => false
    ensures Handle(h, s, HandleTcpPackageMessage(conn, correlation, content), now)
            == h.(core := h.core.(packageNumber := h.core.packageNumber + 1))
  {
    hide History, Get, CloseConnection, GoToConnectedState, DispatchToOperation, DispatchToSubscription;
  }

  /**
   * A turn of an action queue, a settled promise, and a user's unsubscription reach the one operation they are for,
   * active or let go of, and nothing else.
   */
  lemma TouchExact(h: Handler, s: Settings, place: S.Place, touch: S.Touch, now: int)
    requires SubscriptionResults.Inv(h.subs)
    ensures var r := Handle(h, s, TouchMessage(place, touch), now);
            r.core == h.core && r.ops == h.ops && SubscriptionResults.TouchedAs(h.subs, r.subs, place, touch)
  {
    hide SubscriptionResults.TouchedAs, SubscriptionResults.Inv, S.TouchedAt;
    SubscriptionResults.TouchedExact(h.subs, place, touch);
  }

  /** What the handshake sends, and to whom the answer has to come, at each message that advances it. */
  ghost predicate Greets(c: Core, d: Core, s: Settings, message: Message, now: int)
    requires Greeting(c) && Advances(c, s, message)
  {
    match c.phase
    case EndPointDiscovery =>
      var endPoint := if s.useSslConnection then message.secureTcp else message.tcp;
      && d.connection == Some(c.nextConn) && d.nextConn == c.nextConn + 1 && d.emitted == c.emitted
      && d.sent == c.sent + [Dial(endPoint.value, c.nextConn)]
    case ConnectionEstablishing =>
      && c.connection.Some? && d.connection == c.connection && d.emitted == c.emitted
      && d.heartbeat == Some(Heartbeat(None, c.packageNumber, true, now)) && d.nextId == c.nextId + 1
      && if s.hasCredentials then
           d.auth == Some(Stamp(c.nextId, now)) && d.sent == c.sent + [Authenticate(c.nextId, c.connection.value)]
         else
           d.identity == Some(Stamp(c.nextId, now)) && d.sent == c.sent + [IdentifyClient(c.nextId, c.connection.value)]
    case Authentication =>
      && c.connection.Some? && d.connection == c.connection && d.identity == Some(Stamp(c.nextId, now))
      && d.sent == c.sent + [IdentifyClient(c.nextId, c.connection.value)] && d.nextId == c.nextId + 1
      && d.emitted == c.emitted + if message.content == AuthenticationRefused then [AuthenticationFailed] else []
    case _ =>
      d.state == Connected && d.connection == c.connection && d.sent == c.sent
      && d.emitted == c.emitted + [ConnectedEvent]
  }

  lemma HandshakeSends(h: Handler, s: Settings, message: Message, now: int)
    requires CoreOk(h.core, s) && Greeting(h.core) && Advances(h.core, s, message)
    ensures Greets(h.core, Handle(h, s, message, now).core, s, message, now)
  {
    hide History, CloseConnection, Dispatch, O.CheckTimeoutsAndRetry, S.CheckTimeoutsAndRetry;
    assert h.core.emitted + [] == h.core.emitted;
  }

  /**
   * A connection that closes is given up: it is tried again once the delay from now on is over, with the count kept.
   */
  lemma LossExact(h: Handler, s: Settings, conn: nat, now: int)
    requires CoreOk(h.core, s) && h.core.connection == Some(conn)
    ensures var r := Handle(h, s, TcpConnectionClosedMessage(conn), now);
            && r.core.state == Connecting && r.core.phase == Reconnecting && !r.core.wasConnected
            && r.core.reconn == Some(Reconnection(Tried(h.core), now)) && r.core.sent == h.core.sent
            && r.core.emitted == h.core.emitted + (if h.core.wasConnected then [DisconnectedEvent] else [])
            && r.ops == h.ops && r.subs == S.PurgeSubscribedAndDropped(h.subs, conn)
  {
    hide History, S.PurgeSubscribedAndDropped;
    assert h.core.emitted + [] == h.core.emitted;
  }

  /** The messages that close a handler, and whether they carry an error. */
  predicate ClosesWith(c: Core, s: Settings, message: Message, hasError: bool) {
    match message
    case CloseConnectionMessage(e) => e == hasError
    case EstablishTcpConnectionMessage(tcp, secureTcp) =>
      (if s.useSslConnection then secureTcp else tcp).None? && !hasError
    case TcpConnectionErrorMessage(conn, e) => c.connection == Some(conn) && e == hasError
    case HandleTcpPackageMessage(conn, correlation, content) =>
      c.connection == Some(conn) && correlation == EmptyGuid && content == BadRequestContent && hasError
    case _ => false
  }

  /**
   * Closing cleans up both managers and emits the error, if somebody listens for it, and `closed`, unless the error is
   * not listened for.
   */
  lemma ClosesExact(h: Handler, s: Settings, message: Message, now: int, hasError: bool)
    requires CoreOk(h.core, s) && h.core.state != Closed && ClosesWith(h.core, s, message, hasError)
    ensures var r := Handle(h, s, message, now);
            && r.core.state == Closed && r.core.connection.None? && r.core.sent == h.core.sent
            && r.core.emitted == h.core.emitted + (if !hasError then [ClosedEvent]
                                                   else if s.hasErrorListener then [ErrorEvent, ClosedEvent] else [])
            && r.ops == O.CleanUp(h.ops) && r.subs == S.CleanUp(h.subs)
  {
    hide History, O.CleanUp, S.CleanUp, Dispatch;
    assert h.core.emitted + [] == h.core.emitted;
    assert h.core.emitted + [ErrorEvent] + [ClosedEvent] == h.core.emitted + [ErrorEvent, ClosedEvent];
  }

  /**
   * A tick of a handler that looks for a connection. A reconnection attempt that is due is announced and looks for an
   * end point, or closes the handler when all have been used up; an authentication that is not answered in time is
   * reported, and the handler is connected; and otherwise nothing is announced.
   */
  lemma ConnectingTick(h: Handler, s: Settings, now: int)
    requires CoreOk(h.core, s) && h.core.state == Connecting
    ensures var c, r := h.core, Handle(h, s, TimerTickMessage, now);
            if c.phase == Reconnecting then
              && c.reconn.Some?
              && if now - c.reconn.value.at < s.reconnectionDelay then r == h
                 else if s.maxReconnections >= 0 && Tried(c) >= s.maxReconnections then
                   r.core.state == Closed && r.core.emitted == c.emitted + [ClosedEvent]
                 else
                   r == h.(core := c.(phase := EndPointDiscovery, reconn := Some(Reconnection(Tried(c) + 1, now)),
                                      emitted := c.emitted + [ReconnectingEvent]))
            else if c.phase == Authentication then
              && c.auth.Some?
              && (now - c.auth.value.at >= s.operations.operationTimeout ==>
                    r.core.state == Connected && r.core.emitted == c.emitted + [AuthenticationFailed, ConnectedEvent])
            else r == h
  {
    hide History, ManageHeartbeats, O.CheckTimeoutsAndRetry, S.CheckTimeoutsAndRetry, O.CleanUp, S.CleanUp;
    assert h.core.emitted + [AuthenticationFailed] + [ConnectedEvent]
        == h.core.emitted + [AuthenticationFailed, ConnectedEvent];
  }

  /**
   * A new operation: it is sent if the handler is connected and there is room, waits if not, and fails at once in a
   * handler that has not been started or is closed. It comes behind all before it in the order of sequence numbers.
   */
  lemma StartOperationExact(h: Handler, s: Settings, id: nat, maxRetries: int, timeout: int, now: int)
    requires CoreOk(h.core, s) && OperationBooks.Shape(h.ops, s.operations)
    ensures var r := Handle(h, s, StartOperationMessage(id, maxRetries, timeout), now);
            var item := O.Item(h.ops.nextSeqNo, NewOperation(id), maxRetries, timeout, h.ops.nextId, 0, now, None);
            && r.core == h.core && r.subs == h.subs
            && (h.core.state.Connecting? || h.core.state.Connected? ==> r.ops.nextSeqNo == h.ops.nextSeqNo + 1)
            && match h.core.state
               case Connecting =>
                 r.ops.waiting == h.ops.waiting + [item] && r.ops.active == h.ops.active && r.ops.wire == h.ops.wire
                 && r.ops.callbacks == h.ops.callbacks
               case Connected =>
                 var conn := h.core.connection.value;
                 && r.ops.callbacks == h.ops.callbacks
                 && if |h.ops.active.entries| < s.operations.maxConcurrentItems then
                      && r.ops.waiting == h.ops.waiting
                      && r.ops.active.entries == h.ops.active.entries
                                                 + [Entry(item.correlationId, item.(connectionId := Some(conn)))]
                      && r.ops.wire == h.ops.wire + [O.Sent(id, item.correlationId, conn)]
                    else
                      r.ops.waiting == h.ops.waiting + [item] && r.ops.active == h.ops.active
                      && r.ops.wire == h.ops.wire
               case _ =>
                 r.ops == h.ops.(callbacks := h.ops.callbacks + [Callback(id, Failed("not active or closed"))])
  {
    hide History, OperationChecks.Apart;
    assert !HasKey(h.ops.active.entries, h.ops.nextId);
  }

  /** A subscription that is refused has its start callback told so. */
  lemma RefusedTold(id: nat)
    ensures Refused(id) == SubscriptionOperations.NewSubOperation(id).(
              unsubscribed := true,
              calls := [SubscriptionOperations.StartFailed(SubscriptionOperations.ConnectionClosed)])
  {
    assert [] + [SubscriptionOperations.StartFailed(SubscriptionOperations.ConnectionClosed)]
        == [SubscriptionOperations.StartFailed(SubscriptionOperations.ConnectionClosed)];
  }

  /**
   * A new subscription: the server is asked for it if the handler is connected, it waits while the handler looks for a
   * connection, and its start callback is told that the connection is closed where there will be none.
   */
  lemma StartSubscriptionExact(h: Handler, s: Settings, id: nat, maxRetries: int, timeout: int, now: int)
    requires CoreOk(h.core, s) && SubscriptionResults.Inv(h.subs)
    ensures var r := Handle(h, s, StartSubscriptionMessage(id, maxRetries, timeout), now);
            && r.core == h.core && r.ops == h.ops && r.subs.retryPending == h.subs.retryPending
            && match h.core.state
               case Connecting =>
                 && |r.subs.waiting| == |h.subs.waiting| + 1 && h.subs.waiting < r.subs.waiting
                 && r.subs.waiting[|h.subs.waiting|]
                    == S.SubItem(SubscriptionOperations.NewSubOperation(id), maxRetries, timeout, h.subs.nextId, 0, now,
                                 false, None)
                 && r.subs.active == h.subs.active && r.subs.released == h.subs.released
               case Connected =>
                 var conn, key := h.core.connection.value, h.subs.nextId + 1;
                 && r.subs.waiting == h.subs.waiting && r.subs.released == h.subs.released
                 && |r.subs.active.entries| == |h.subs.active.entries| + 1
                 && h.subs.active.entries < r.subs.active.entries
                 && var e := r.subs.active.entries[|h.subs.active.entries|];
                    && e.key == key && e.value.connectionId == Some(conn) && !e.value.isSubscribed
                    && e.value.lastUpdated == now && e.value.retryCount == 0 && e.value.maxRetries == maxRetries
                    && e.value.timeout == timeout
                    && e.value.operation == SubscriptionOperations.NewSubOperation(id).(
                         correlationId := Some(key), sent := [SubscriptionOperations.Subscribe(key, conn)])
               case _ =>
                 r.subs == h.subs.(released := h.subs.released + [SubscriptionOperations.NewSubOperation(id).(
                     unsubscribed := true,
                     calls := [SubscriptionOperations.StartFailed(SubscriptionOperations.ConnectionClosed)])])
  {
    hide History, SubscriptionOperations.Orderly, Refused;
    RefusedTold(id);
    assert !HasKey(h.subs.active.entries, h.subs.nextId + 1);
  }

  // ---- The count of operations ----

  /** From `o` to `r` the count has become right, or nothing has changed that it counts. */
  ghost predicate Recounted(o: O.Ops, r: O.Ops) {
    r.total == r.active.length + |r.waiting| || (r.total == o.total && r.active == o.active && r.waiting == o.waiting)
  }

  lemma {:induction false} DrainCounts(o: O.Ops, s: O.Settings, conn: nat, now: int)
    ensures var r := O.ScheduleWaitingOperations(o, s, conn, now); r.total == r.active.length + |r.waiting|
    decreases |o.waiting|
  {
    hide O.ScheduleOperation;
    if |o.waiting| > 0 && o.active.length < s.maxConcurrentItems {
      DrainCounts(O.ScheduleOperation(o.(waiting := o.waiting[1..]), s, o.waiting[0], conn, now), s, conn, now);
    }
  }

  lemma ReplyCounts(o: O.Ops, item: O.Item, r: Inspected)
    ensures Recounted(o, O.Resolved(o, item, r))
  {
    hide Deleted;
  }

  lemma CheckCounts(o: O.Ops, s: O.Settings, conn: nat, now: int)
    ensures Recounted(o, O.CheckTimeoutsAndRetry(o, s, conn, now))
  {
    hide O.Swept, O.Reissued, O.ScheduleWaitingOperations;
    DrainCounts(O.Reissued(O.Swept(o, s, conn, now), s, conn, now), s, conn, now);
  }

  lemma CleanUpCounts(o: O.Ops)
    ensures Recounted(o, O.CleanUp(o))
  {
  }

  lemma MoveCounts(h: Handler, s: Settings, tcp: Option<EndPoint>, secureTcp: Option<EndPoint>, now: int)
    ensures Recounted(h.ops, ReconnectTo(h, s, tcp, secureTcp, now).ops)
  {
    hide O.CleanUp, S.CleanUp, S.PurgeSubscribedAndDropped;
    CleanUpCounts(h.ops);
  }

  lemma DispatchCounts(h: Handler, s: Settings, conn: nat, correlation: Correlation, content: Content, now: int)
    ensures Recounted(h.ops, Dispatch(h, s, conn, correlation, content, now).ops)
  {
    hide InspectPackage, SubscriptionOperations.InspectSubscription, O.Resolved, S.Resolved, Get, AsReply, AsSubReply,
      O.ScheduleWaitingOperations, ReconnectTo;
    match correlation
    case ForOperation(id) =>
      var item := Get(h.ops.active.entries, id);
      if item.Some? {
        var r := InspectPackage(item.value.operation, AsReply(content));
        ReplyCounts(h.ops, item.value, r);
        DrainCounts(O.Resolved(h.ops, item.value, r), s.operations, conn, now);
        if r.decision.Reconnect? {
          var moved := ReconnectTo(h, s, r.decision.tcpEndPoint, r.decision.secureTcpEndPoint, now);
          MoveCounts(h, s, r.decision.tcpEndPoint, r.decision.secureTcpEndPoint, now);
          ReplyCounts(moved.ops, item.value, r);
          DrainCounts(O.Resolved(moved.ops, item.value, r), s.operations, conn, now);
        }
      }
    case ForSubscription(id) =>
      var item := Get(h.subs.active.entries, id);
      if item.Some? {
        var r := SubscriptionOperations.InspectSubscription(item.value.operation, AsSubReply(content));
        if r.decision.Reconnect? {
          MoveCounts(h, s, r.decision.tcpEndPoint, r.decision.secureTcpEndPoint, now);
        }
      }
    case _ =>
  }

  /**
   * The count of operations, active and waiting, is brought up to date by everything that changes either, except by an
   * operation that comes while there is no connection: that one is not counted until the next change.
   */
  lemma CountExact(h: Handler, s: Settings, message: Message, now: int)
    ensures var o, r := h.ops, Handle(h, s, message, now).ops;
            if message.StartOperationMessage? && h.core.state == Connecting then
              r.total == o.total && r.active == o.active && |r.waiting| == |o.waiting| + 1
            else Recounted(o, r)
  {
    hide O.CleanUp, S.CleanUp, S.PurgeSubscribedAndDropped, O.CheckTimeoutsAndRetry, S.CheckTimeoutsAndRetry, Dispatch,
      S.TouchedAt, Refused, S.StartSubscription, S.EnqueueSubscription, Assigned, Recounted;
    CleanUpCounts(h.ops);
    Uncounted(h.ops);
    match message
    case HandleTcpPackageMessage(conn, correlation, content) =>
      DispatchCounts(h.(core := Counted(h.core)), s, conn, correlation, content, now);
      CheckCounts(h.ops, s.operations, conn, now);
    case TimerTickMessage =>
      if h.core.connection.Some? {
        CheckCounts(h.ops, s.operations, h.core.connection.value, now);
      }
    case StartOperationMessage(id, maxRetries, timeout) =>
      if h.core.state != Connecting {
        StartCounts(h, s, id, maxRetries, timeout, now);
      }
    case _ =>
  }

  lemma Uncounted(o: O.Ops)
    ensures Recounted(o, o)
  {
  }

  lemma StartCounts(h: Handler, s: Settings, id: nat, maxRetries: int, timeout: int, now: int)
    requires h.core.state != Connecting
    ensures Recounted(h.ops, StartOperation(h, s, id, maxRetries, timeout, now).ops)
  {
    hide Assigned;
  }
}
