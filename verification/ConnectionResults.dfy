/** What users of a connection can rely on, over every run. */
module ConnectionResults {
  import opened ConnectionCore
  import opened ConnectionLogic
  import opened ConnectionRuns
  import opened Hashes
  import opened OperationBooks
  import opened Operations
  import opened OperationSettlement
  import opened Wrappers
  import O = OperationScheduling
  import OperationChecks
  import S = SubscriptionScheduling
  import SubscriptionOperations
  import SubscriptionResults

  /**
   * Every operation a run has started is in exactly one of the manager's collections or has been called back, exactly
   * once; in a run that has closed it has been called back. It has never been sent more often than its limit allows,
   * and while it is pending it has been sent as often as its retry count says.
   */
  lemma OperationsSettle(s: Settings, run: seq<Timed>, id: nat)
    requires NewOperations(run)
    ensures var h := Run(s, run);
            if id in Book(run) then
              && Held(h.ops, id) + Calls(h.ops, id) == 1
              && (h.core.state == Closed ==> Calls(h.ops, id) == 1)
              && (Book(run)[id] >= 0 ==> Sends(h.ops, id) <= Book(run)[id] + 1)
              && (Calls(h.ops, id) == 0 ==> Sends(h.ops, id) == Owed(h.ops, id))
            else Held(h.ops, id) == 0 && Calls(h.ops, id) == 0 && Sends(h.ops, id) == 0
  {
    hide Run, Book, CoreOk, Held, Calls, Sends, Owed, OperationBooks.Shape, AllTracked, SubscriptionResults.Inv;
    var h := Run(s, run);
    RunKeeps(s, run, id);
    assert Account(h.ops, id, Book(run));
    if h.core.state == Closed {
      EmptiedHolds(h, id);
    }
    if Held(h.ops, id) == 0 {
      NothingOwed(h.ops, id);
    }
  }

  lemma EmptiedHolds(h: Handler, id: nat)
    requires Emptied(h)
    ensures Held(h.ops, id) == 0
  {
    assert |Items(h.ops.active.entries)| == 0;
  }

  /**
   * In every run the table of active operations is consistent: its hand-kept length is the number of its keys, each key
   * is the correlation id of its operation, no id is used twice, and there are no more of them than allowed.
   */
  lemma ActiveConsistent(s: Settings, run: seq<Timed>)
    requires NewOperations(run)
    ensures var o := Run(s, run).ops;
            && OperationChecks.Keyed(o.active.entries) && o.active.length == |o.active.entries|
            && (o.active.entries == [] || |o.active.entries| <= s.operations.maxConcurrentItems)
            && OperationChecks.Apart(o.active.entries, o.waiting)
  {
    hide Run, CoreOk, AllTracked, SubscriptionResults.Inv, OperationChecks.Keyed, OperationChecks.Apart;
    RunKeeps(s, run, 0);
  }

  /**
   * Every subscription a run has started is in exactly one place, its queue in order and its callbacks called at most
   * once.
   */
  lemma SubscriptionsInOrder(s: Settings, run: seq<Timed>, id: nat)
    requires NewOperations(run)
    ensures var h := Run(s, run);
            && SubscriptionResults.Tally(h.subs, id) == Begun(run, id) && SubscriptionResults.Inv(h.subs)
            && (h.core.state == Closed ==>
                  h.subs.active.entries == [] && h.subs.waiting == [] && h.subs.retryPending == [])
  {
    hide Run, CoreOk, OperationBooks.Sound, SubscriptionResults.Inv, SubscriptionResults.Tally;
    RunKeeps(s, run, id);
  }

  lemma {:induction false} RunCoreOk(s: Settings, run: seq<Timed>)
    ensures CoreOk(Run(s, run).core, s)
  {
    hide CoreOk, Handle;
    if run == [] {
      NewKeeps(s);
    } else {
      var front, last := run[..|run| - 1], run[|run| - 1];
      RunCoreOk(s, front);
      HandleCoreOk(Run(s, front), s, last.message, last.now);
    }
  }

  /** In every run the state, the phase and the fields that go with them agree. */
  lemma StateInShape(s: Settings, run: seq<Timed>)
    ensures ConnectionCore.Shape(Run(s, run).core)
  {
    hide Run, History, ConnectionCore.Shape;
    RunCoreOk(s, run);
  }

  /** Closed is final: nothing is emitted, nothing in the handler changes, and a new operation fails at once. */
  lemma ClosedIsFinal(h: Handler, s: Settings, message: Message, now: int)
    requires h.core.state == Closed && h.core.connection.None?
    ensures var r := Handle(h, s, message, now);
            && r.core == h.core
            && r.ops == (if message.StartOperationMessage? then
                           h.ops.(callbacks := h.ops.callbacks + [Callback(message.id, Failed("not active or closed"))])
                         else h.ops)
            && (message.TouchMessage? || message.StartSubscriptionMessage? || r.subs == h.subs)
  {
    hide S.TouchedAt, Refused, O.EnqueueOperation, O.ScheduleOperation, S.EnqueueSubscription, S.StartSubscription;
  }

  /** `connected` and `disconnected` alternate, `connected` first: between two of a kind there is one of the other. */
  ghost predicate Alternate(events: seq<Event>) {
    && (forall j :: 0 <= j < |events| && events[j] == DisconnectedEvent ==>
          exists i :: 0 <= i < j && events[i] == ConnectedEvent && NoneBetween(events, DisconnectedEvent, i, j))
    && (forall i, j :: 0 <= i < j < |events| && events[i] == ConnectedEvent && events[j] == ConnectedEvent ==>
          !NoneBetween(events, DisconnectedEvent, i, j))
  }

  ghost predicate NoneBetween(events: seq<Event>, e: Event, i: int, j: int) {
    forall k :: 0 <= k < |events| && i < k < j ==> events[k] != e
  }

  /** The last connection event, if it was `connected`, and where. */
  ghost predicate LastUp(events: seq<Event>, up: bool) {
    if up then
      exists i ::
        0 <= i < |events| && events[i] == ConnectedEvent && NoneBetween(events, DisconnectedEvent, i, |events|)
    else
      forall i :: 0 <= i < |events| && events[i] == ConnectedEvent ==>
        !NoneBetween(events, DisconnectedEvent, i, |events|)
  }

  lemma BetweenMore(events: seq<Event>, e: Event, kind: Event, i: int, j: int)
    requires j <= |events|
    ensures NoneBetween(events + [e], kind, i, j) <==> NoneBetween(events, kind, i, j)
  {
    var more := events + [e];
    assert forall k :: 0 <= k < |events| ==> more[k] == events[k];
  }

  lemma AlternateMore(events: seq<Event>, e: Event, up: bool)
    requires Alternate(events) && LastUp(events, up)
    requires e == ConnectedEvent ==> !up
    requires e == DisconnectedEvent ==> up
    ensures Alternate(events + [e])
  {
    hide NoneBetween;
    var more, n := events + [e], |events|;
    forall j | 0 <= j < |more| && more[j] == DisconnectedEvent
      ensures exists i :: 0 <= i < j && more[i] == ConnectedEvent && NoneBetween(more, DisconnectedEvent, i, j)
    {
      var i :| 0 <= i < j && events[i] == ConnectedEvent && NoneBetween(events, DisconnectedEvent, i, j);
      BetweenMore(events, e, DisconnectedEvent, i, j);
      assert more[i] == events[i];
    }
    forall i, j | 0 <= i < j < |more| && more[i] == ConnectedEvent && more[j] == ConnectedEvent
      ensures !NoneBetween(more, DisconnectedEvent, i, j)
    {
      assert more[i] == events[i];
      BetweenMore(events, e, DisconnectedEvent, i, j);
    }
  }

  lemma LastUpMore(events: seq<Event>, e: Event, up: bool)
    requires LastUp(events, up)
    ensures LastUp(events + [e], if e == ConnectedEvent then true else if e == DisconnectedEvent then false else up)
  {
    var more, n := events + [e], |events|;
    assert more[n] == e;
    assert forall k :: 0 <= k < n ==> more[k] == events[k];
    if e == ConnectedEvent {
      assert NoneBetween(more, DisconnectedEvent, n, n + 1);
    } else if e != DisconnectedEvent {
      if up {
        var i :| 0 <= i < n && events[i] == ConnectedEvent && NoneBetween(events, DisconnectedEvent, i, n);
        assert NoneBetween(more, DisconnectedEvent, i, n + 1);
      } else {
        forall i | 0 <= i < n && more[i] == ConnectedEvent ensures !NoneBetween(more, DisconnectedEvent, i, n + 1) {
          assert events[i] == ConnectedEvent;
          assert !NoneBetween(events, DisconnectedEvent, i, n);
          var k :| 0 <= k < n && i < k < n && events[k] == DisconnectedEvent;
          assert more[k] == DisconnectedEvent;
        }
      }
    }
  }

  /** The fold that the invariant uses means what it should. */
  lemma {:induction false} UpAlternates(events: seq<Event>)
    requires Up(events).Some?
    ensures Alternate(events) && LastUp(events, Up(events).value)
  {
    hide Alternate, LastUp;
    if events == [] {
      NothingAlternates();
    } else {
      var front, last := events[..|events| - 1], events[|events| - 1];
      assert events == front + [last];
      UpAlternates(front);
      AlternateMore(front, last, Up(front).value);
      LastUpMore(front, last, Up(front).value);
    }
  }

  lemma NothingAlternates()
    ensures Alternate([]) && LastUp([], false)
  {
  }

  /**
   * What a run emits: `connected` and `disconnected` alternate, `closed` comes at most once and nothing after it, and
   * with a reconnection limit there are never more `reconnecting` events than that since the last reset.
   */
  lemma EmittedInOrder(s: Settings, run: seq<Timed>)
    ensures var c := Run(s, run).core;
            && Alternate(c.emitted)
            && (forall i :: 0 <= i < |c.emitted| - 1 ==> c.emitted[i] != ClosedEvent)
            && c.resetAt <= |c.emitted|
            && (s.maxReconnections >= 0 ==> Attempts(c.emitted[c.resetAt..]) <= s.maxReconnections)
  {
    hide Run, Alternate, Attempts, Up;
    RunCoreOk(s, run);
    HistoryAlternates(Run(s, run).core, s);
  }

  /** A reconnection attempt that is due closes the connection exactly when the limit has been used up. */
  lemma LastAttemptCloses(h: Handler, s: Settings, now: int)
    requires CoreOk(h.core, s) && h.core.state == Connecting && h.core.phase == Reconnecting
    requires now - h.core.reconn.value.at >= s.reconnectionDelay
    ensures TimerTick(h, s, now).core.state == Closed
            <==> s.maxReconnections >= 0 && Attempts(h.core.emitted[h.core.resetAt..]) == s.maxReconnections
  {
    hide Up, Attempts, NoClosed, O.CleanUp, S.CleanUp;
  }

  // ---- What one message keeps and promises ----

  /** What every message keeps of the handler and its managers. */
  ghost predicate Sound(h: Handler, s: Settings, book: map<nat, int>) { CoreOk(h.core, s) && Managed(h, s, book) }

  lemma Kept(h: Handler, s: Settings, message: Message, now: int, book: map<nat, int>)
    requires Sound(h, s, book) && (message.StartOperationMessage? ==> message.id !in book)
    ensures Sound(Handle(h, s, message, now), s, Booked(book, message))
  {
    hide CoreOk, Managed, Handle, SubscriptionResults.Tally;
    HandleKeeps(h, s, message, now, book, 0);
  }

  /** Every operation on the book has been called back once at most, and has been when the handler is closed. */
  ghost predicate CallsOk(h: Handler, book: map<nat, int>) {
    forall id :: id in book ==> OperationBooks.Calls(h.ops, id) <= 1
                                && (h.core.state == Closed ==> OperationBooks.Calls(h.ops, id) == 1)
  }

  /** Nothing emitted is taken back, connections go up and down in turn, and nothing follows the end. */
  ghost predicate EmittedOk(before: seq<Event>, events: seq<Event>) {
    && before <= events && Alternate(events) && forall i :: 0 <= i < |events| - 1 ==> events[i] != ClosedEvent
  }

  lemma CallsLimited(h: Handler, s: Settings, book: map<nat, int>)
    requires Sound(h, s, book)
    ensures CallsOk(h, book)
  {
    hide CoreOk, OperationBooks.Shape, OperationBooks.AllTracked, SubscriptionResults.Inv, OperationBooks.Held,
      OperationBooks.Calls, OperationBooks.Sends, OperationBooks.Owed;
    forall id | id in book
      ensures OperationBooks.Calls(h.ops, id) <= 1 && (h.core.state == Closed ==> OperationBooks.Calls(h.ops, id) == 1)
    {
      assert OperationBooks.Account(h.ops, id, book);
      if h.core.state == Closed {
        EmptiedHolds(h, id);
      }
    }
  }

  lemma HistoryAlternates(c: Core, s: Settings)
    requires CoreOk(c, s)
    ensures Alternate(c.emitted) && forall i :: 0 <= i < |c.emitted| - 1 ==> c.emitted[i] != ClosedEvent
  {
    hide Alternate, Attempts, Up, ConnectionCore.Shape;
    UpAlternates(c.emitted);
    var front := if c.emitted == [] then [] else c.emitted[..|c.emitted| - 1];
    assert forall i :: 0 <= i < |front| ==> front[i] == c.emitted[i];
  }

  lemma ClosedUnconnected(c: Core, s: Settings)
    requires CoreOk(c, s) && c.state == Closed
    ensures c.connection.None?
  {
    hide History;
  }

  lemma Promised(h: Handler, s: Settings, message: Message, now: int, book: map<nat, int>)
    requires Sound(h, s, book) && (message.StartOperationMessage? ==> message.id !in book)
    ensures var r := Handle(h, s, message, now);
            && CallsOk(r, Booked(book, message)) && EmittedOk(h.core.emitted, r.core.emitted)
            && (h.core.state == Closed ==> r.core == h.core)
  {
    hide CallsOk, CoreOk, Managed, Handle, Alternate;
    Kept(h, s, message, now, book);
    var r := Handle(h, s, message, now);
    CallsLimited(r, s, Booked(book, message));
    HistoryAlternates(r.core, s);
    EmittedGrows(h, s, message, now);
    if h.core.state == Closed {
      ClosedUnconnected(h.core, s);
      ClosedIsFinal(h, s, message, now);
    }
  }

  // ---- Nothing emitted is taken back ----

  ghost predicate Grows(h: Handler, r: Handler) { h.core.emitted <= r.core.emitted }

  lemma CloseGrows(h: Handler, s: Settings, hasError: bool)
    ensures Grows(h, CloseConnection(h, s, hasError))
  {
    hide O.CleanUp, S.CleanUp;
  }

  lemma LossGrows(h: Handler, conn: nat, now: int)
    ensures Grows(h, TcpConnectionClosed(h, conn, now)) && Grows(h, CloseTcpConnection(h, now))
  {
    hide S.PurgeSubscribedAndDropped;
  }

  lemma EstablishGrows(h: Handler, s: Settings, tcp: Option<EndPoint>, secureTcp: Option<EndPoint>)
    ensures Grows(h, EstablishTcpConnection(h, s, tcp, secureTcp))
  {
    hide CloseConnection;
    CloseGrows(h, s, false);
  }

  lemma ConnectedGrows(h: Handler, s: Settings, now: int)
    ensures Grows(h, GoToConnectedState(h, s, now))
  {
    hide O.CheckTimeoutsAndRetry, S.CheckTimeoutsAndRetry;
  }

  lemma ReconnectGrows(h: Handler, s: Settings, tcp: Option<EndPoint>, secureTcp: Option<EndPoint>, now: int)
    ensures Grows(h, ReconnectTo(h, s, tcp, secureTcp, now))
  {
    hide CloseConnection, CloseTcpConnection, EstablishTcpConnection;
    CloseGrows(h, s, false);
    if h.core.connection.Some? {
      LossGrows(h, h.core.connection.value, now);
    } else {
      LossGrows(h, 0, now);
    }
    var down := CloseTcpConnection(h, now);
    EstablishGrows(down.(core := down.core.(state := Connecting, phase := EndPointDiscovery)), s, tcp, secureTcp);
  }

  lemma DispatchGrows(h: Handler, s: Settings, conn: nat, correlation: Correlation, content: Content, now: int)
    ensures Grows(h, Dispatch(h, s, conn, correlation, content, now))
  {
    hide ReconnectTo, InspectPackage, SubscriptionOperations.InspectSubscription, O.Resolved, S.Resolved, Get,
      AsReply, AsSubReply, O.ScheduleWaitingOperations;
    match correlation
    case ForOperation(id) =>
      var item := Get(h.ops.active.entries, id);
      if item.Some? {
        var r := InspectPackage(item.value.operation, AsReply(content));
        if r.decision.Reconnect? {
          ReconnectGrows(h, s, r.decision.tcpEndPoint, r.decision.secureTcpEndPoint, now);
        }
      }
    case ForSubscription(id) =>
      var item := Get(h.subs.active.entries, id);
      if item.Some? {
        var r := SubscriptionOperations.InspectSubscription(item.value.operation, AsSubReply(content));
        if r.decision.Reconnect? {
          ReconnectGrows(h, s, r.decision.tcpEndPoint, r.decision.secureTcpEndPoint, now);
        }
      }
    case _ =>
  }

  lemma PackageGrows(h: Handler, s: Settings, conn: nat, correlation: Correlation, content: Content, now: int)
    ensures Grows(h, HandleTcpPackage(h, s, conn, correlation, content, now))
  {
    hide Dispatch, CloseConnection, GoToConnectedState;
    var counted := h.(core := Counted(h.core));
    ConnectedGrows(counted, s, now);
    CloseGrows(counted, s, true);
    DispatchGrows(counted, s, conn, correlation, content, now);
  }

  lemma HeartbeatsGrow(h: Handler, s: Settings, now: int)
    ensures Grows(h, ManageHeartbeats(h, s, now))
  {
    hide CloseTcpConnection;
    LossGrows(h, 0, now);
  }

  lemma TickGrows(h: Handler, s: Settings, now: int)
    ensures Grows(h, TimerTick(h, s, now))
  {
    hide CloseConnection, GoToConnectedState, ManageHeartbeats, O.CheckTimeoutsAndRetry, S.CheckTimeoutsAndRetry;
    var c := h.core;
    HeartbeatsGrow(h, s, now);
    ConnectedGrows(h.(core := Emit(c, AuthenticationFailed)), s, now);
    if c.reconn.Some? {
      CloseGrows(h.(core := c.(reconn := Some(Reconnection(c.reconn.value.attempt + 1, now)))), s, false);
    }
    if c.connection.Some? {
      var reset := c.(reconn := Some(Reconnection(0, now)), resetAt := |c.emitted|);
      HeartbeatsGrow(CheckTimeouts(h.(core := reset), s, c.connection.value, now), s, now);
    }
  }

  lemma EmittedGrows(h: Handler, s: Settings, message: Message, now: int)
    ensures Grows(h, Handle(h, s, message, now))
  {
    hide CloseConnection, EstablishTcpConnection, TcpConnectionClosed, HandleTcpPackage, TimerTick, StartOperation,
      StartSubscription, S.TouchedAt;
    match message
    case CloseConnectionMessage(hasError) => CloseGrows(h, s, hasError);
    case StartOperationMessage(id, maxRetries, timeout) => StartGrows(h, s, id, maxRetries, timeout, now);
    case StartSubscriptionMessage(id, maxRetries, timeout) => StartGrows(h, s, id, maxRetries, timeout, now);
    case EstablishTcpConnectionMessage(tcp, secureTcp) => EstablishGrows(h, s, tcp, secureTcp);
    case TcpConnectionErrorMessage(_, hasError) => CloseGrows(h, s, hasError);
    case TcpConnectionClosedMessage(conn) => LossGrows(h, conn, now);
    case HandleTcpPackageMessage(conn, correlation, content) => PackageGrows(h, s, conn, correlation, content, now);
    case TimerTickMessage => TickGrows(h, s, now);
    case _ =>
  }

  lemma StartGrows(h: Handler, s: Settings, id: nat, maxRetries: int, timeout: int, now: int)
    ensures Grows(h, StartOperation(h, s, id, maxRetries, timeout, now))
    ensures Grows(h, StartSubscription(h, id, maxRetries, timeout, now))
  {
    hide O.EnqueueOperation, O.ScheduleOperation, S.EnqueueSubscription, S.StartSubscription, Refused;
  }
}
