/** The connection logic handler as the object the source keeps, with its two managers. */
module ConnectionLogicHandlers {
  import opened ConnectionLogic
  import opened ConnectionResults
  import opened ConnectionRuns
  import opened Hashes
  import opened Operations
  import opened Wrappers
  import O = OperationScheduling
  import OperationBooks
  import OperationsManagers
  import S = SubscriptionScheduling
  import SubscriptionOperations
  import SubscriptionResults
  import SubscriptionsManagers

  lemma ClosedAnyway(c: Core, s: Settings, hasError: bool)
    ensures CoreClosed(c.(state := Closed), s, hasError) == CoreClosed(c, s, hasError)
    ensures CoreClosed(c, s, hasError).state == Closed
  {
  }

  class ConnectionLogicHandler {
    const settings: Settings
    const operations: OperationsManagers.OperationsManager
    const subscriptions: SubscriptionsManagers.SubscriptionsManager
    var state: ConnectionState
    var phase: Phase
    var connection: Option<nat>
    var wasConnected: bool
    var packageNumber: nat
    var auth: Option<Stamp>
    var identity: Option<Stamp>
    var heartbeat: Option<Heartbeat>
    var reconn: Option<Reconnection>
    var lastTimeouts: int
    /** Where the next connection and correlation id come from. */
    var nextConn: nat
    var nextId: nat
    /** What the handler has done to the world so far. */
    var emitted: seq<Event>
    var sent: seq<Outgoing>
    ghost var resetAt: nat
    ghost var book: map<nat, int>

    ghost function Parts(): set<object> {
      {this, operations, operations.active, subscriptions, subscriptions.active}
    }

    /** The managers share the settings and keep tables of their own. */
    ghost predicate Wired() {
      && operations.settings == settings.operations && subscriptions.settings == settings.operations
      && (operations.active as object) != subscriptions.active
    }

    /** Between messages the handler is in order, `book` holding the retry limit of every operation started so far. */
    ghost predicate Valid()
      reads Parts()
    {
      Wired() && Sound(State(), settings, book)
    }

    ghost function CoreState(): Core
      reads this
    {
      Core(state, phase, connection, wasConnected, packageNumber, auth, identity, heartbeat, reconn, lastTimeouts,
           nextConn, nextId, emitted, sent, resetAt)
    }

    ghost function State(): Handler
      reads Parts()
    {
      Handler(CoreState(), operations.State(), subscriptions.State())
    }

    constructor (settings: Settings)
      ensures Valid() && State() == NewHandler() && this.settings == settings && book == map[]
    {
      this.settings := settings;
      operations := new OperationsManagers.OperationsManager(settings.operations);
      subscriptions := new SubscriptionsManagers.SubscriptionsManager(settings.operations);
      state, phase, connection, wasConnected, packageNumber := Init, InvalidPhase, None, false, 0;
      auth, identity, heartbeat, reconn, lastTimeouts := None, None, None, None, 0;
      nextConn, nextId, emitted, sent, resetAt := 0, 0, [], [], 0;
      book := map[];
      new;
      NewKeeps(settings);
    }

    /**
     * A message. What callers rely on: once closed the handler does nothing more; an operation is called back once at
     * most, and has been once the handler is closed; and what the handler has emitted stays as it is, alternates, and
     * ends with `closed` if that is there at all.
     */
    method Handle(message: Message, now: int)
      requires Valid()
      requires message.StartOperationMessage? ==> message.id !in book
      modifies Parts()
      ensures Valid() && State() == ConnectionLogic.Handle(old(State()), settings, message, now)
      ensures book == Booked(old(book), message)
      ensures old(state) == Closed ==> CoreState() == old(CoreState())
      ensures CallsOk(State(), book) && EmittedOk(old(emitted), emitted)
    {
      hide Sound, CallsOk, EmittedOk, ConnectionLogic.Handle;
      Kept(State(), settings, message, now, book);
      Promised(State(), settings, message, now, book);
      Perform(message, now);
      book := Booked(book, message);
    }

    method Perform(message: Message, now: int)
      requires Wired()
      modifies Parts()
      ensures State() == ConnectionLogic.Handle(old(State()), settings, message, now) && book == old(book)
    {
      hide ConnectionLogic.StartConnection, ConnectionLogic.CloseConnection, ConnectionLogic.StartOperation,
        ConnectionLogic.StartSubscription, ConnectionLogic.EstablishTcpConnection,
        ConnectionLogic.TcpConnectionEstablished, ConnectionLogic.TcpConnectionError,
        ConnectionLogic.TcpConnectionClosed, ConnectionLogic.HandleTcpPackage, ConnectionLogic.TimerTick, S.TouchedAt;
      match message
      case StartConnectionMessage => StartConnection();
      case CloseConnectionMessage(hasError) => CloseConnection(hasError);
      case StartOperationMessage(id, maxRetries, timeout) => StartOperation(id, maxRetries, timeout, now);
      case StartSubscriptionMessage(id, maxRetries, timeout) => StartSubscription(id, maxRetries, timeout, now);
      case EstablishTcpConnectionMessage(tcp, secureTcp) => EstablishTcpConnection(tcp, secureTcp);
      case TcpConnectionEstablishedMessage(conn) => TcpConnectionEstablished(conn, now);
      case TcpConnectionErrorMessage(conn, hasError) => TcpConnectionError(conn, hasError);
      case TcpConnectionClosedMessage(conn) => TcpConnectionClosed(conn, now);
      case HandleTcpPackageMessage(conn, correlation, content) => HandleTcpPackage(conn, correlation, content, now);
      case TimerTickMessage => TimerTick(now);
      case TouchMessage(place, touch) => subscriptions.TouchSubscription(place, touch);
    }

    method DiscoverEndpoint()
      modifies this
      ensures CoreState() == ConnectionLogic.DiscoverEndpoint(old(CoreState()))
      ensures book == old(book)
    {
      if state != Connecting || phase != Reconnecting {
        return;
      }
      phase := EndPointDiscovery;
    }

    method StartConnection()
      modifies this
      ensures CoreState() == ConnectionLogic.StartConnection(old(CoreState()))
      ensures book == old(book)
    {
      if state == Init {
        state, phase := Connecting, Reconnecting;
        DiscoverEndpoint();
      }
    }

    method CloseConnection(hasError: bool)
      requires Wired()
      modifies Parts()
      ensures State() == ConnectionLogic.CloseConnection(old(State()), settings, hasError)
      ensures book == old(book)
    {
      hide CoreClosed, O.CleanUp, S.CleanUp, OperationsManagers.AllCalled, OperationBooks.Sound,
        SubscriptionResults.Inv;
      if state == Closed {
        return;
      }
      ClosedAnyway(CoreState(), settings, hasError);
      state := Closed;
      operations.CleanUp();
      subscriptions.CleanUp();
      SayClosed(hasError);
    }

    /** The last events; an `error` event that nobody listens to is an exception. */
    method SayClosed(hasError: bool)
      modifies this
      ensures CoreState() == CoreClosed(old(CoreState()), settings, hasError).(state := old(state))
      ensures book == old(book)
    {
      connection := None;
      if hasError {
        if !settings.hasErrorListener {
          return;
        }
        emitted := emitted + [ErrorEvent];
      }
      emitted := emitted + [ClosedEvent];
    }

    method LoseConnection(now: int)
      modifies this
      ensures CoreState() == CoreLost(old(CoreState()), now)
      ensures book == old(book)
    {
      state, phase := Connecting, Reconnecting;
      reconn := Some(Reconnection(if reconn.Some? then reconn.value.attempt else 0, now));
      if wasConnected {
        wasConnected := false;
        emitted := emitted + [DisconnectedEvent];
      }
    }

    method TcpConnectionClosed(conn: nat, now: int)
      requires Wired()
      modifies Parts()
      ensures State() == ConnectionLogic.TcpConnectionClosed(old(State()), conn, now)
      ensures book == old(book)
    {
      hide S.PurgeSubscribedAndDropped, CoreLost;
      if state == Init || state == Closed || connection != Some(conn) {
        return;
      }
      subscriptions.PurgeSubscribedAndDroppedSubscriptions(conn);
      LoseConnection(now);
    }

    method CloseTcpConnection(now: int)
      requires Wired()
      modifies Parts()
      ensures State() == ConnectionLogic.CloseTcpConnection(old(State()), now)
      ensures book == old(book)
    {
      hide ConnectionLogic.TcpConnectionClosed;
      if connection.None? {
        return;
      }
      TcpConnectionClosed(connection.value, now);
      connection := None;
    }

    method EstablishTcpConnection(tcp: Option<EndPoint>, secureTcp: Option<EndPoint>)
      requires Wired()
      modifies Parts()
      ensures State() == ConnectionLogic.EstablishTcpConnection(old(State()), settings, tcp, secureTcp)
      ensures book == old(book)
    {
      hide ConnectionLogic.CloseConnection, Dialing;
      var endPoint := if settings.useSslConnection then secureTcp else tcp;
      if endPoint.None? {
        CloseConnection(false);
        return;
      }
      if state != Connecting || phase != EndPointDiscovery {
        return;
      }
      Dial(endPoint.value);
    }

    method Dial(endPoint: EndPoint)
      modifies this
      ensures CoreState() == Dialing(old(CoreState()), endPoint)
      ensures book == old(book)
    {
      phase := ConnectionEstablishing;
      connection := Some(nextConn);
      sent := sent + [Outgoing.Dial(endPoint, nextConn)];
      nextConn := nextConn + 1;
    }

    method GoToIdentifiedState(conn: nat, now: int)
      modifies this
      ensures CoreState() == ConnectionLogic.GoToIdentifiedState(old(CoreState()), conn, now)
      ensures book == old(book)
    {
      phase := Identification;
      identity := Some(Stamp(nextId, now));
      sent := sent + [IdentifyClient(nextId, conn)];
      nextId := nextId + 1;
    }

    method TcpConnectionEstablished(conn: nat, now: int)
      modifies this
      ensures CoreState() == ConnectionLogic.TcpConnectionEstablished(old(CoreState()), settings, conn, now)
      ensures book == old(book)
    {
      if state != Connecting || connection != Some(conn) {
        return;
      }
      heartbeat := Some(Heartbeat(None, packageNumber, true, now));
      if settings.hasCredentials {
        phase := Authentication;
        auth := Some(Stamp(nextId, now));
        sent := sent + [Authenticate(nextId, conn)];
        nextId := nextId + 1;
      } else {
        GoToIdentifiedState(conn, now);
      }
    }

    method CheckTimeouts(conn: nat, now: int)
      requires Wired()
      modifies Parts()
      ensures State() == ConnectionLogic.CheckTimeouts(old(State()), settings, conn, now)
      ensures book == old(book)
    {
      hide O.CheckTimeoutsAndRetry, S.CheckTimeoutsAndRetry;
      operations.CheckTimeoutsAndRetry(conn, now);
      subscriptions.CheckTimeoutsAndRetry(conn, now);
      lastTimeouts := now;
    }

    method GoToConnectedState(now: int)
      requires Wired()
      modifies Parts()
      ensures State() == ConnectionLogic.GoToConnectedState(old(State()), settings, now)
      ensures book == old(book)
    {
      hide ConnectionLogic.CheckTimeouts;
      state, phase := Connected, ConnectedPhase;
      wasConnected := true;
      if connection.None? {
        return;
      }
      emitted := emitted + [ConnectedEvent];
      if now - lastTimeouts >= settings.operationTimeoutCheckPeriod {
        CheckTimeouts(connection.value, now);
      }
    }

    method TcpConnectionError(conn: nat, hasError: bool)
      requires Wired()
      modifies Parts()
      ensures State() == ConnectionLogic.TcpConnectionError(old(State()), settings, conn, hasError)
      ensures book == old(book)
    {
      hide ConnectionLogic.CloseConnection;
      if connection == Some(conn) {
        CloseConnection(hasError);
      }
    }

    method ReconnectTo(tcp: Option<EndPoint>, secureTcp: Option<EndPoint>, now: int)
      requires Wired()
      modifies Parts()
      ensures State() == ConnectionLogic.ReconnectTo(old(State()), settings, tcp, secureTcp, now)
      ensures book == old(book)
    {
      hide ConnectionLogic.CloseConnection, ConnectionLogic.CloseTcpConnection, ConnectionLogic.EstablishTcpConnection;
      var endPoint := if settings.useSslConnection then secureTcp else tcp;
      if endPoint.None? {
        CloseConnection(false);
        return;
      }
      if state != Connected {
        return;
      }
      CloseTcpConnection(now);
      state, phase := Connecting, EndPointDiscovery;
      EstablishTcpConnection(tcp, secureTcp);
    }

    /** What an inspection's decision makes of an active operation; see the function of the same name. */
    method ResolveOperation(item: O.Item, r: Inspected)
      requires Wired()
      modifies Parts()
      ensures State() == old(State()).(ops := O.Resolved(old(operations.State()), item, r))
      ensures book == old(book)
    {
      hide O.ScheduleOperationRetry, O.RemoveOperation;
      operations.callbacks := operations.callbacks + r.calls;
      match r.decision
      case EndOperation => operations.RemoveOperation(item.(operation := r.operation));
      case Retry => operations.ScheduleOperationRetry(item.(operation := r.operation));
      case Reconnect(_, _) => operations.ScheduleOperationRetry(item.(operation := r.operation));
      case _ =>
    }

    method DispatchToOperation(conn: nat, item: O.Item, reply: Reply, now: int)
      requires Wired()
      modifies Parts()
      ensures State() == ConnectionLogic.DispatchToOperation(old(State()), settings, conn, item, reply, now)
      ensures book == old(book)
    {
      hide InspectPackage, ConnectionLogic.ReconnectTo, O.Resolved, O.ScheduleWaitingOperations;
      var r := InspectPackage(item.operation, reply);
      if r.decision.Reconnect? {
        ReconnectTo(r.decision.tcpEndPoint, r.decision.secureTcpEndPoint, now);
      }
      ResolveOperation(item, r);
      if state == Connected {
        operations.ScheduleWaitingOperations(conn, now);
      }
    }

    method ResolveSubscription(item: S.SubItem, r: SubscriptionOperations.SubInspected)
      requires Wired()
      modifies Parts()
      ensures State() == old(State()).(subs := S.Resolved(old(subscriptions.State()), item, r))
      ensures book == old(book)
    {
      hide S.ScheduleSubscriptionRetry;
      var left := item.(operation := r.op);
      match r.decision
      case DoNothing =>
        subscriptions.active.entries := Assigned(subscriptions.active.entries, left.correlationId, left);
      case Subscribed =>
        subscriptions.active.entries := Assigned(subscriptions.active.entries, left.correlationId,
            left.(isSubscribed := true));
      case EndOperation =>
        subscriptions.RemoveSubscription(left);
        subscriptions.released := subscriptions.released + [r.op];
      case Retry => subscriptions.ScheduleSubscriptionRetry(left);
      case Reconnect(_, _) => subscriptions.ScheduleSubscriptionRetry(left);
    }

    method DispatchToSubscription(item: S.SubItem, reply: SubscriptionOperations.SubReply, now: int)
      requires Wired()
      modifies Parts()
      ensures State() == ConnectionLogic.DispatchToSubscription(old(State()), settings, item, reply, now)
      ensures book == old(book)
    {
      hide SubscriptionOperations.InspectSubscription, ConnectionLogic.ReconnectTo, S.Resolved;
      var r := SubscriptionOperations.InspectSubscription(item.operation, reply);
      if r.decision.Reconnect? {
        ReconnectTo(r.decision.tcpEndPoint, r.decision.secureTcpEndPoint, now);
      }
      ResolveSubscription(item, r);
    }

    method Dispatch(conn: nat, correlation: Correlation, content: Content, now: int)
      requires Wired()
      modifies Parts()
      ensures State() == ConnectionLogic.Dispatch(old(State()), settings, conn, correlation, content, now)
      ensures book == old(book)
    {
      hide ConnectionLogic.DispatchToOperation, ConnectionLogic.DispatchToSubscription, Get, AsReply, AsSubReply;
      match correlation
      case ForOperation(id) =>
        var item := operations.GetActiveOperation(id);
        if item.Some? {
          DispatchToOperation(conn, item.value, AsReply(content), now);
        }
      case ForSubscription(id) =>
        var item := Get(subscriptions.active.entries, id);
        if item.Some? {
          DispatchToSubscription(item.value, AsSubReply(content), now);
        }
      case _ =>
    }

    method OnHeartbeat(conn: nat, correlation: Correlation, content: Content)
      modifies this
      ensures CoreState() == ConnectionLogic.OnHeartbeat(old(CoreState()), conn, correlation, content)
      ensures book == old(book)
    {
      if content == HeartbeatRequest {
        sent := sent + [AnswerHeartbeat(correlation, conn)];
      } else if heartbeat.Some? && heartbeat.value.id.Some? && correlation == ForHandler(heartbeat.value.id.value) {
        emitted := emitted + [HeartbeatInfo];
      }
    }

    method CountPackage()
      modifies this
      ensures CoreState() == Counted(old(CoreState()))
      ensures book == old(book)
    {
      packageNumber := packageNumber + 1;
    }

    method HandlePackage(conn: nat, correlation: Correlation, content: Content, now: int)
      requires Wired()
      modifies Parts()
      ensures State() == ConnectionLogic.HandlePackage(old(State()), settings, conn, correlation, content, now)
      ensures book == old(book)
    {
      hide ConnectionLogic.HandleCounted, ConnectionLogic.OnHeartbeat;
      CountPackage();
      if IsHeartbeat(content) {
        OnHeartbeat(conn, correlation, content);
      } else {
        HandleCounted(conn, correlation, content, now);
      }
    }

    method HandleTcpPackage(conn: nat, correlation: Correlation, content: Content, now: int)
      requires Wired()
      modifies Parts()
      ensures State() == ConnectionLogic.HandleTcpPackage(old(State()), settings, conn, correlation, content, now)
      ensures book == old(book)
    {
      hide ConnectionLogic.HandlePackage;
      if connection == Some(conn) && state != Closed && state != Init {
        HandlePackage(conn, correlation, content, now);
      }
    }

    /** Anything but a heartbeat. */
    method HandleCounted(conn: nat, correlation: Correlation, content: Content, now: int)
      requires Wired()
      modifies Parts()
      ensures State() == ConnectionLogic.HandleCounted(old(State()), settings, conn, correlation, content, now)
      ensures book == old(book)
    {
      hide ConnectionLogic.Dispatch, ConnectionLogic.CloseConnection, ConnectionLogic.GoToConnectedState;
      if content == Authenticated || content == AuthenticationRefused {
        if state == Connecting && phase == Authentication {
          if auth.None? {
            return;
          }
          if Answers(auth, correlation) {
            if content == AuthenticationRefused {
              emitted := emitted + [AuthenticationFailed];
            }
            GoToIdentifiedState(conn, now);
            return;
          }
        }
      }
      if content == ClientIdentified && state == Connecting {
        if identity.None? {
          return;
        }
        if Answers(identity, correlation) {
          GoToConnectedState(now);
          return;
        }
      }
      if content == BadRequestContent && correlation == EmptyGuid {
        CloseConnection(true);
        return;
      }
      Dispatch(conn, correlation, content, now);
    }

    method ManageHeartbeats(now: int)
      requires Wired()
      modifies Parts()
      ensures State() == ConnectionLogic.ManageHeartbeats(old(State()), settings, now)
      ensures book == old(book)
    {
      hide ConnectionLogic.CloseTcpConnection;
      if connection.None? || heartbeat.None? {
        return;
      }
      var beat := heartbeat.value;
      var timeout := if beat.isIntervalStage then settings.heartbeatInterval else settings.heartbeatTimeout;
      if now - beat.at < timeout {
        return;
      }
      if beat.lastPackageNumber != packageNumber {
        heartbeat := Some(Heartbeat(None, packageNumber, true, now));
        return;
      }
      if beat.isIntervalStage {
        sent := sent + [AskHeartbeat(nextId, connection.value)];
        heartbeat := Some(Heartbeat(Some(nextId), beat.lastPackageNumber, false, now));
        nextId := nextId + 1;
      } else {
        CloseTcpConnection(now);
      }
    }

    method TickConnecting(now: int)
      requires Wired()
      modifies Parts()
      ensures State() == ConnectionLogic.TickConnecting(old(State()), settings, now)
      ensures book == old(book)
    {
      hide ConnectionLogic.CloseConnection, ConnectionLogic.GoToConnectedState, ConnectionLogic.ManageHeartbeats;
      if phase == Reconnecting {
        if reconn.None? || now - reconn.value.at < settings.reconnectionDelay {
          return;
        }
        reconn := Some(Reconnection(reconn.value.attempt + 1, now));
        if settings.maxReconnections >= 0 && reconn.value.attempt > settings.maxReconnections {
          CloseConnection(false);
        } else {
          emitted := emitted + [ReconnectingEvent];
          DiscoverEndpoint();
        }
      } else if phase == Authentication && auth.None? {
        return;
      } else if phase == Authentication && now - auth.value.at >= settings.operations.operationTimeout {
        emitted := emitted + [AuthenticationFailed];
        GoToConnectedState(now);
      } else if phase == Authentication || phase == ConnectedPhase {
        ManageHeartbeats(now);
      }
    }

    method TimerTick(now: int)
      requires Wired()
      modifies Parts()
      ensures State() == ConnectionLogic.TimerTick(old(State()), settings, now)
      ensures book == old(book)
    {
      hide ConnectionLogic.TickConnecting, ConnectionLogic.CheckTimeouts, ConnectionLogic.ManageHeartbeats;
      match state
      case Connecting => TickConnecting(now);
      case Connected =>
        if connection.None? {
          return;
        }
        if now - lastTimeouts >= settings.operationTimeoutCheckPeriod {
          reconn := Some(Reconnection(0, now));
          resetAt := |emitted|;
          CheckTimeouts(connection.value, now);
        }
        ManageHeartbeats(now);
      case _ =>
    }

    method StartOperation(id: nat, maxRetries: int, timeout: int, now: int)
      requires Wired()
      modifies Parts()
      ensures State() == ConnectionLogic.StartOperation(old(State()), settings, id, maxRetries, timeout, now)
      ensures book == old(book)
    {
      hide O.ScheduleOperation, O.EnqueueOperation, O.NewItem, O.Numbered;
      ghost var o := operations.State();
      match state
      case Connecting =>
        var item := operations.CreateItem(id, maxRetries, timeout, now);
        operations.EnqueueOperation(item);
      case Connected =>
        if connection.None? {
          return;
        }
        var item := operations.CreateItem(id, maxRetries, timeout, now);
        operations.ScheduleOperation(item, connection.value, now);
      case _ =>
        operations.callbacks := operations.callbacks + [Callback(id, Failed("not active or closed"))];
    }

    method StartSubscription(id: nat, maxRetries: int, timeout: int, now: int)
      requires Wired()
      modifies Parts()
      ensures State() == ConnectionLogic.StartSubscription(old(State()), id, maxRetries, timeout, now)
      ensures book == old(book)
    {
      hide S.StartSubscription, Refused;
      match state
      case Connecting =>
        var item := S.SubItem(SubscriptionOperations.NewSubOperation(id), maxRetries, timeout, subscriptions.nextId,
            0, now, false, None);
        subscriptions.nextId := subscriptions.nextId + 1;
        subscriptions.EnqueueSubscription(item);
      case Connected =>
        if connection.None? {
          return;
        }
        var item := S.SubItem(SubscriptionOperations.NewSubOperation(id), maxRetries, timeout, subscriptions.nextId,
            0, now, false, None);
        subscriptions.nextId := subscriptions.nextId + 1;
        subscriptions.StartSubscription(item, connection.value, now);
      case _ =>
        subscriptions.released := subscriptions.released + [Refused(id)];
    }
  }
}
