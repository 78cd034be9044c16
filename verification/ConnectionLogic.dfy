/** The connection logic handler: what each message does to the connection state and to the two managers. */
module ConnectionLogic {
  import opened Hashes
  import opened Operations
  import opened Wrappers
  import O = OperationScheduling
  import S = SubscriptionScheduling
  import SubscriptionOperations

  datatype ConnectionState = Init | Connecting | Connected | Closed

  datatype Phase =
    | InvalidPhase | Reconnecting | EndPointDiscovery | ConnectionEstablishing | Authentication | Identification
    | ConnectedPhase

  /** What the handler emits to its listeners. */
  datatype Event =
    | ConnectedEvent | DisconnectedEvent | ReconnectingEvent | ClosedEvent | ErrorEvent | AuthenticationFailed
    | HeartbeatInfo

  /** A correlation id, by whoever drew it; ids drawn at random by different parties never coincide. */
  datatype Correlation =
    | ForOperation(id: nat) | ForSubscription(id: nat) | ForHandler(id: nat) | EmptyGuid | Foreign(id: nat)

  /** A package as the handler sees it; absent parts are those that fail to decode. */
  datatype Content =
    | HeartbeatRequest | HeartbeatResponse | Authenticated | AuthenticationRefused | ClientIdentified
    | BadRequestContent
    | NotHandledContent(why: Option<NotHandledReason>)
    | OperationResponse(result: Option<OperationResult>, transforms: bool)
    | ConfirmationContent(lastCommitPosition: Option<int>)
    | EventContent(event: Option<nat>)
    | DropContent(drop: Option<SubscriptionOperations.ServerDrop>)
    | OtherContent

  function AsReply(content: Content): Reply {
    match content
    case AuthenticationRefused => NotAuthenticated
    case BadRequestContent => BadRequest
    case NotHandledContent(why) => NotHandled(why)
    case OperationResponse(result, transforms) => Response(result, transforms)
    case _ => OtherCommand
  }

  function AsSubReply(content: Content): SubscriptionOperations.SubReply {
    match content
    case AuthenticationRefused => SubscriptionOperations.NotAuthenticatedReply
    case BadRequestContent => SubscriptionOperations.BadRequestReply
    case NotHandledContent(why) => SubscriptionOperations.NotHandledReply(why)
    case ConfirmationContent(position) => SubscriptionOperations.Confirmation(position)
    case EventContent(event) => SubscriptionOperations.EventAppeared(event)
    case DropContent(drop) => SubscriptionOperations.SubscriptionDropped(drop)
    case _ => SubscriptionOperations.OtherReply
  }

  datatype Settings = Settings(
    operations: O.Settings, useSslConnection: bool, hasCredentials: bool, maxReconnections: int, reconnectionDelay: int,
    operationTimeoutCheckPeriod: int, heartbeatInterval: int, heartbeatTimeout: int, hasErrorListener: bool)

  datatype Stamp = Stamp(id: nat, at: int)

  datatype Heartbeat = Heartbeat(id: Option<nat>, lastPackageNumber: nat, isIntervalStage: bool, at: int)

  datatype Reconnection = Reconnection(attempt: nat, at: int)

  /** What the handler asks for itself: a connection to an end point, and packages of its own. */
  datatype Outgoing =
    | Dial(endPoint: EndPoint, conn: nat)
    | Authenticate(id: nat, conn: nat) | IdentifyClient(id: nat, conn: nat) | AskHeartbeat(id: nat, conn: nat)
    | AnswerHeartbeat(correlation: Correlation, conn: nat)

  /**
   * The handler's own fields. Connections and the handler's correlation ids are numbered as they are made. `emitted`
   * and `sent` are history, and `resetAt` is how much had been emitted when the reconnection count was last reset.
   */
  datatype Core = Core(
    state: ConnectionState, phase: Phase, connection: Option<nat>, wasConnected: bool, packageNumber: nat,
    auth: Option<Stamp>, identity: Option<Stamp>, heartbeat: Option<Heartbeat>, reconn: Option<Reconnection>,
    lastTimeouts: int, nextConn: nat, nextId: nat, emitted: seq<Event>, sent: seq<Outgoing>, resetAt: nat)

  datatype Handler = Handler(core: Core, ops: O.Ops, subs: S.Subs)

  function NewCore(): Core {
    Core(Init, InvalidPhase, None, false, 0, None, None, None, None, 0, 0, 0, [], [], 0)
  }

  function NewHandler(): Handler { Handler(NewCore(), O.NewOps(), S.NewSubs()) }

  function Emit(c: Core, event: Event): Core { c.(emitted := c.emitted + [event]) }

  function DiscoverEndpoint(c: Core): Core {
    if c.state == Connecting && c.phase == Reconnecting then c.(phase := EndPointDiscovery) else c
  }

  function StartConnection(c: Core): Core {
    if c.state == Init then DiscoverEndpoint(c.(state := Connecting, phase := Reconnecting)) else c
  }

  /** An `error` event that nobody listens to is an exception, which skips the `closed` event. */
  function CoreClosed(c: Core, s: Settings, hasError: bool): Core {
    var shut := c.(state := Closed, connection := None);
    if !hasError then Emit(shut, ClosedEvent)
    else if s.hasErrorListener then Emit(Emit(shut, ErrorEvent), ClosedEvent)
    else shut
  }

  function CloseConnection(h: Handler, s: Settings, hasError: bool): Handler {
    if h.core.state == Closed then h
    else Handler(CoreClosed(h.core, s, hasError), O.CleanUp(h.ops), S.CleanUp(h.subs))
  }

  function CoreLost(c: Core, now: int): Core {
    var lost := c.(state := Connecting, phase := Reconnecting, wasConnected := false,
                   reconn := Some(Reconnection(if c.reconn.Some? then c.reconn.value.attempt else 0, now)));
    if c.wasConnected then Emit(lost, DisconnectedEvent) else lost
  }

  function TcpConnectionClosed(h: Handler, conn: nat, now: int): Handler {
    if h.core.state == Init || h.core.state == Closed || h.core.connection != Some(conn) then h
    else h.(core := CoreLost(h.core, now), subs := S.PurgeSubscribedAndDropped(h.subs, conn))
  }

  function CloseTcpConnection(h: Handler, now: int): Handler {
    if h.core.connection.None? then h
    else
      var r := TcpConnectionClosed(h, h.core.connection.value, now);
      r.(core := r.core.(connection := None))
  }

  /** The one of two end points that the settings ask for. */
  function EndPointFor(s: Settings, tcp: Option<EndPoint>, secureTcp: Option<EndPoint>): Option<EndPoint> {
    if s.useSslConnection then secureTcp else tcp
  }

  function Dialing(c: Core, endPoint: EndPoint): Core {
    c.(phase := ConnectionEstablishing, connection := Some(c.nextConn), nextConn := c.nextConn + 1,
       sent := c.sent + [Dial(endPoint, c.nextConn)])
  }

  function EstablishTcpConnection(h: Handler, s: Settings, tcp: Option<EndPoint>, secureTcp: Option<EndPoint>): Handler
  {
    var endPoint := EndPointFor(s, tcp, secureTcp);
    if endPoint.None? then CloseConnection(h, s, false)
    else if h.core.state == Connecting && h.core.phase == EndPointDiscovery then
      h.(core := Dialing(h.core, endPoint.value))
    else h
  }

  function GoToIdentifiedState(c: Core, conn: nat, now: int): Core {
    c.(phase := Identification, identity := Some(Stamp(c.nextId, now)), nextId := c.nextId + 1,
       sent := c.sent + [IdentifyClient(c.nextId, conn)])
  }

  function Authenticating(c: Core, conn: nat, now: int): Core {
    c.(phase := Authentication, auth := Some(Stamp(c.nextId, now)), nextId := c.nextId + 1,
       sent := c.sent + [Authenticate(c.nextId, conn)])
  }

  function TcpConnectionEstablished(c: Core, s: Settings, conn: nat, now: int): Core {
    if c.state != Connecting || c.connection != Some(conn) then c
    else
      var beating := c.(heartbeat := Some(Heartbeat(None, c.packageNumber, true, now)));
      if s.hasCredentials then Authenticating(beating, conn, now) else GoToIdentifiedState(beating, conn, now)
  }

  /** Both managers look through what is pending. */
  function CheckTimeouts(h: Handler, s: Settings, conn: nat, now: int): Handler {
    Handler(h.core.(lastTimeouts := now), O.CheckTimeoutsAndRetry(h.ops, s.operations, conn, now),
            S.CheckTimeoutsAndRetry(h.subs, s.operations, conn, now))
  }

  predicate CheckDue(c: Core, s: Settings, now: int) { now - c.lastTimeouts >= s.operationTimeoutCheckPeriod }

  /** Without a connection the event cannot be emitted: an exception. */
  function GoToConnectedState(h: Handler, s: Settings, now: int): Handler {
    var up := h.core.(state := Connected, phase := ConnectedPhase, wasConnected := true);
    if up.connection.None? then h.(core := up)
    else
      var r := h.(core := Emit(up, ConnectedEvent));
      if CheckDue(up, s, now) then CheckTimeouts(r, s, up.connection.value, now) else r
  }

  function TcpConnectionError(h: Handler, s: Settings, conn: nat, hasError: bool): Handler {
    if h.core.connection != Some(conn) then h else CloseConnection(h, s, hasError)
  }

  function ReconnectTo(h: Handler, s: Settings, tcp: Option<EndPoint>, secureTcp: Option<EndPoint>, now: int): Handler {
    if EndPointFor(s, tcp, secureTcp).None? then CloseConnection(h, s, false)
    else if h.core.state != Connected then h
    else
      var down := CloseTcpConnection(h, now);
      EstablishTcpConnection(
        down.(core := down.core.(state := Connecting, phase := EndPointDiscovery)), s, tcp, secureTcp)
  }

  /** A reply to an active operation. */
  function DispatchToOperation(h: Handler, s: Settings, conn: nat, item: O.Item, reply: Reply, now: int): Handler {
    var r := InspectPackage(item.operation, reply);
    var after :=
      if r.decision.Reconnect? then
        var moved := ReconnectTo(h, s, r.decision.tcpEndPoint, r.decision.secureTcpEndPoint, now);
        moved.(ops := O.Resolved(moved.ops, item, r))
      else h.(ops := O.Resolved(h.ops, item, r));
    if after.core.state == Connected then
      after.(ops := O.ScheduleWaitingOperations(after.ops, s.operations, conn, now))
    else after
  }

  /** A package for an active subscription. */
  function DispatchToSubscription(
    h: Handler, s: Settings, item: S.SubItem, reply: SubscriptionOperations.SubReply, now: int): Handler
  {
    var r := SubscriptionOperations.InspectSubscription(item.operation, reply);
    if r.decision.Reconnect? then
      var moved := ReconnectTo(h, s, r.decision.tcpEndPoint, r.decision.secureTcpEndPoint, now);
      moved.(subs := S.Resolved(moved.subs, item, r))
    else h.(subs := S.Resolved(h.subs, item, r))
  }

  function Dispatch(h: Handler, s: Settings, conn: nat, correlation: Correlation, content: Content, now: int): Handler {
    match correlation
    case ForOperation(id) =>
      var item := Get(h.ops.active.entries, id);
      if item.Some? then DispatchToOperation(h, s, conn, item.value, AsReply(content), now) else h
    case ForSubscription(id) =>
      var item := Get(h.subs.active.entries, id);
      if item.Some? then DispatchToSubscription(h, s, item.value, AsSubReply(content), now) else h
    case _ => h
  }

  predicate Answers(stamp: Option<Stamp>, correlation: Correlation) {
    stamp.Some? && correlation == ForHandler(stamp.value.id)
  }

  predicate IsHeartbeat(content: Content) { content == HeartbeatResponse || content == HeartbeatRequest }

  function OnHeartbeat(c: Core, conn: nat, correlation: Correlation, content: Content): Core {
    if content == HeartbeatRequest then c.(sent := c.sent + [AnswerHeartbeat(correlation, conn)])
    else if c.heartbeat.Some? && c.heartbeat.value.id.Some?
        && correlation == ForHandler(c.heartbeat.value.id.value) then
      Emit(c, HeartbeatInfo)
    else c
  }

  function Counted(c: Core): Core { c.(packageNumber := c.packageNumber + 1) }

  /** A package on the current connection. */
  function HandlePackage(h: Handler, s: Settings, conn: nat, correlation: Correlation, content: Content,
      now: int): Handler {
    if IsHeartbeat(content) then h.(core := OnHeartbeat(Counted(h.core), conn, correlation, content))
    else HandleCounted(h.(core := Counted(h.core)), s, conn, correlation, content, now)
  }

  /** Anything but a heartbeat; a missing stamp is an exception. */
  function HandleCounted(h: Handler, s: Settings, conn: nat, correlation: Correlation, content: Content,
      now: int): Handler {
    var c := h.core;
    if (content == Authenticated || content == AuthenticationRefused)
         && c.state == Connecting && c.phase == Authentication && (c.auth.None? || Answers(c.auth, correlation)) then
      if c.auth.None? then h
      else
        var told := if content == AuthenticationRefused then Emit(c, AuthenticationFailed) else c;
        h.(core := GoToIdentifiedState(told, conn, now))
    else if content == ClientIdentified && c.state == Connecting
        && (c.identity.None? || Answers(c.identity, correlation)) then
      if c.identity.None? then h else GoToConnectedState(h, s, now)
    else if content == BadRequestContent && correlation == EmptyGuid then CloseConnection(h, s, true)
    else Dispatch(h, s, conn, correlation, content, now)
  }

  function HandleTcpPackage(h: Handler, s: Settings, conn: nat, correlation: Correlation, content: Content,
      now: int): Handler {
    if h.core.connection != Some(conn) || h.core.state == Closed || h.core.state == Init then h
    else HandlePackage(h, s, conn, correlation, content, now)
  }

  function ManageHeartbeats(h: Handler, s: Settings, now: int): Handler {
    var c := h.core;
    if c.connection.None? || c.heartbeat.None? then h
    else
      var beat := c.heartbeat.value;
      if now - beat.at < (if beat.isIntervalStage then s.heartbeatInterval else s.heartbeatTimeout) then h
      else if beat.lastPackageNumber != c.packageNumber then
        h.(core := c.(heartbeat := Some(Heartbeat(None, c.packageNumber, true, now))))
      else if beat.isIntervalStage then
        h.(core := c.(heartbeat := Some(Heartbeat(Some(c.nextId), beat.lastPackageNumber, false, now)),
                      nextId := c.nextId + 1, sent := c.sent + [AskHeartbeat(c.nextId, c.connection.value)]))
      else CloseTcpConnection(h, now)
  }

  function TickReconnecting(h: Handler, s: Settings, now: int): Handler
    requires h.core.reconn.Some?
  {
    var attempt := h.core.reconn.value.attempt + 1;
    var c := h.core.(reconn := Some(Reconnection(attempt, now)));
    if s.maxReconnections >= 0 && attempt > s.maxReconnections then CloseConnection(h.(core := c), s, false)
    else h.(core := DiscoverEndpoint(Emit(c, ReconnectingEvent)))
  }

  function TickConnecting(h: Handler, s: Settings, now: int): Handler {
    var c := h.core;
    if c.phase == Reconnecting && c.reconn.None? then h
    else if c.phase == Reconnecting && now - c.reconn.value.at >= s.reconnectionDelay then TickReconnecting(h, s, now)
    else if c.phase == Authentication && c.auth.None? then h
    else if c.phase == Authentication && now - c.auth.value.at >= s.operations.operationTimeout then
      GoToConnectedState(h.(core := Emit(c, AuthenticationFailed)), s, now)
    else if c.phase == Authentication || c.phase == ConnectedPhase then ManageHeartbeats(h, s, now)
    else h
  }

  function TickConnected(h: Handler, s: Settings, now: int): Handler {
    if h.core.connection.None? then h
    else if CheckDue(h.core, s, now) then
      var reset := h.core.(reconn := Some(Reconnection(0, now)), resetAt := |h.core.emitted|);
      ManageHeartbeats(CheckTimeouts(h.(core := reset), s, h.core.connection.value, now), s, now)
    else ManageHeartbeats(h, s, now)
  }

  function TimerTick(h: Handler, s: Settings, now: int): Handler {
    match h.core.state
    case Connecting => TickConnecting(h, s, now)
    case Connected => TickConnected(h, s, now)
    case _ => h
  }

  function StartOperation(h: Handler, s: Settings, id: nat, maxRetries: int, timeout: int, now: int): Handler {
    var item := O.NewItem(h.ops, id, maxRetries, timeout, now);
    match h.core.state
    case Connecting => h.(ops := O.EnqueueOperation(O.Numbered(h.ops), item))
    case Connected =>
      if h.core.connection.None? then h
      else h.(ops := O.ScheduleOperation(O.Numbered(h.ops), s.operations, item, h.core.connection.value, now))
    case _ => h.(ops := h.ops.(callbacks := h.ops.callbacks + [Callback(id, Failed("not active or closed"))]))
  }

  /** A subscription that is refused at once: its start callback gets the error. */
  function Refused(id: nat): SubscriptionOperations.SubOperation {
    SubscriptionOperations.DropSubscription(
      SubscriptionOperations.NewSubOperation(id), SubscriptionOperations.ConnectionClosed, true,
      SubscriptionOperations.Omitted).op
  }

  function StartSubscription(h: Handler, id: nat, maxRetries: int, timeout: int, now: int): Handler {
    var item := S.NewSubItem(h.subs, id, maxRetries, timeout, now);
    var numbered := h.subs.(nextId := h.subs.nextId + 1);
    match h.core.state
    case Connecting => h.(subs := S.EnqueueSubscription(numbered, item))
    case Connected =>
      if h.core.connection.None? then h
      else h.(subs := S.StartSubscription(numbered, item, h.core.connection.value, now))
    case _ => h.(subs := S.Release(h.subs, Refused(id)))
  }

  /** The messages of the handler's queue, and what users and action queues do to subscriptions in between. */
  datatype Message =
    | StartConnectionMessage
    | CloseConnectionMessage(hasError: bool)
    | StartOperationMessage(id: nat, maxRetries: int, timeout: int)
    | StartSubscriptionMessage(id: nat, maxRetries: int, timeout: int)
    | EstablishTcpConnectionMessage(tcp: Option<EndPoint>, secureTcp: Option<EndPoint>)
    | TcpConnectionEstablishedMessage(conn: nat)
    | TcpConnectionErrorMessage(conn: nat, hasError: bool)
    | TcpConnectionClosedMessage(conn: nat)
    | HandleTcpPackageMessage(conn: nat, correlation: Correlation, content: Content)
    | TimerTickMessage
    | TouchMessage(place: S.Place, touch: S.Touch)

  function Handle(h: Handler, s: Settings, message: Message, now: int): Handler {
    match message
    case StartConnectionMessage => h.(core := StartConnection(h.core))
    case CloseConnectionMessage(hasError) => CloseConnection(h, s, hasError)
    case StartOperationMessage(id, maxRetries, timeout) => StartOperation(h, s, id, maxRetries, timeout, now)
    case StartSubscriptionMessage(id, maxRetries, timeout) => StartSubscription(h, id, maxRetries, timeout, now)
    case EstablishTcpConnectionMessage(tcp, secureTcp) => EstablishTcpConnection(h, s, tcp, secureTcp)
    case TcpConnectionEstablishedMessage(conn) => h.(core := TcpConnectionEstablished(h.core, s, conn, now))
    case TcpConnectionErrorMessage(conn, hasError) => TcpConnectionError(h, s, conn, hasError)
    case TcpConnectionClosedMessage(conn) => TcpConnectionClosed(h, conn, now)
    case HandleTcpPackageMessage(conn, correlation, content) => HandleTcpPackage(h, s, conn, correlation, content, now)
    case TimerTickMessage => TimerTick(h, s, now)
    case TouchMessage(place, touch) => h.(subs := S.TouchedAt(h.subs, place, touch))
  }

  /** A message and the time it is handled at. */
  datatype Timed = Timed(message: Message, now: int)

  /** The handler after a run. */
  function Run(s: Settings, run: seq<Timed>): Handler {
    if run == [] then NewHandler()
    else
      var last := run[|run| - 1];
      Handle(Run(s, run[..|run| - 1]), s, last.message, last.now)
  }
}
